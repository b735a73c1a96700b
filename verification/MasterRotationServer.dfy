/** The server object that performs the rotation request and the startup recovery step by step. */
module MasterRotationServer {
  import opened Secrets
  import opened KeyringFile
  import opened MasterRotation
  import Safety = MasterRotationSafety

  class Server {
    const keyring: File
    var db: Database
    var running: bool
    var maintenance: bool
    var live: string
    var retired: set<string>
    var relayActiveEnc: StoredRelay
    var relayActive: Digest
    var overridden: bool

    ghost function View(): World
      reads this, keyring
    {
      World(keyring.disk, db,
            if running then Up(maintenance, live, retired, relayActiveEnc, relayActive, overridden) else Down)
    }

    constructor (keyring: File, db: Database)
      ensures this.keyring == keyring && View() == World(keyring.disk, db, Down)
    {
      this.keyring := keyring;
      this.db := db;
      running, maintenance, live, retired := false, false, "", {};
      relayActiveEnc, relayActive, overridden := NoRelay, Digest(""), false;
    }

    // ---- Relay key on disk ----

    method ReplacePersistedRelayKey(sealed: StoredRelay, fault: Fault) returns (outcome: Outcome)
      modifies keyring
      ensures (keyring.disk, outcome) == ReplaceRelay(old(keyring.disk), sealed, fault)
    {
      if fault.At(0) {
        return fault.Halt();
      }
      if !keyring.disk.now.credentials.Credentials? {
        return Failed;
      }
      var doc := keyring.disk.now.credentials.doc;
      doc := doc.(relayKey := sealed);
      outcome := keyring.WriteCredentialsFile(doc, fault);
    }

    method ResealPersistedRelayUnderPending(fault: Fault) returns (outcome: Outcome)
      modifies keyring
      ensures (keyring.disk, outcome) == ResealUnderPending(old(keyring.disk), fault)
    {
      var stored := keyring.disk.now.credentials;
      if stored.NoCredentials? {
        return Done;
      }
      if stored.CorruptCredentials? {
        return Failed;
      }
      if stored.doc.relayKey == NoRelay {
        return Done;
      }
      var read := keyring.ReadLocked();
      if !read.Found? || read.doc.pending == "" {
        return Failed;
      }
      var pending := read.doc.pending;
      if stored.doc.relayKey.PlainRelay? {
        outcome := ReplacePersistedRelayKey(Envelope(pending, stored.doc.relayKey.text), fault);
        return;
      }
      if stored.doc.relayKey.master == pending {
        return Done;
      }
      var loaded := keyring.LoadActiveKey();
      if !loaded.Loaded? || stored.doc.relayKey.master != loaded.master {
        return Failed;
      }
      outcome := ReplacePersistedRelayKey(Envelope(pending, stored.doc.relayKey.text), fault);
    }

    // ---- Startup recovery ----

    method VerifyMaster(master: string, rollForward: bool, f: VerifyFaults) returns (outcome: Outcome)
      modifies keyring
      ensures (keyring.disk, outcome) == Verify(old(keyring.disk), db, master, rollForward, f)
    {
      if f.database != Works {
        return f.database.Halt();
      }
      if db.key != master {
        return Failed;
      }
      if f.status != Works {
        return f.status.Halt();
      }
      var current := keyring.ReadLocked();
      if !current.Found? {
        return Failed;
      }
      if rollForward && current.doc.pending != "" {
        outcome := ResealPersistedRelayUnderPending(f.reseal);
        if outcome != Done {
          return;
        }
      }
      if f.relay != Works {
        return f.relay.Halt();
      }
      if !PersistedRelayValid(keyring.disk.now, master) {
        return Failed;
      }
      return Done;
    }

    /** Recovery stopped anywhere keeps a safe directory safe. */
    method RecoverMasterRotation(f: RecoveryFaults) returns (outcome: Outcome, hold: bool)
      modifies keyring
      ensures Recovered(keyring.disk, outcome, hold) == Recover(old(keyring.disk), db, f)
      ensures forall secrets: set<string> ::
                Safety.Safe(old(keyring.disk), db, secrets) ==> Safety.Safe(keyring.disk, db, secrets)
    {
      ghost var before := keyring.disk;
      forall secrets: set<string> | Safety.Safe(before, db, secrets)
        ensures Safety.Safe(Recover(before, db, f).disk, db, secrets)
      {
        Safety.RecoverSafe(before, db, secrets, f);
      }
      outcome, hold := RecoverStepwise(f);
    }

    method RecoverStepwise(f: RecoveryFaults) returns (outcome: Outcome, hold: bool)
      modifies keyring
      ensures Recovered(keyring.disk, outcome, hold) == Recover(old(keyring.disk), db, f)
    {
      if f.status != Works {
        return f.status.Halt(), false;
      }
      var read := keyring.ReadLocked();
      if !read.Found? {
        return Failed, false;
      }
      var doc := read.doc;
      if doc.phase == Idle || doc.phase == Cleaned {
        return Done, false;
      }
      if doc.phase.Unsupported? {
        return Failed, true;
      }
      if f.committedID != Works {
        return f.committedID.Halt(), true;
      }
      if doc.phase == Prepared && doc.rotationID != db.rotationID {
        var loaded := keyring.LoadActiveKey();
        if !loaded.Loaded? {
          return Failed, true;
        }
        outcome := VerifyMaster(loaded.master, false, f.verifyOld);
        if outcome != Done {
          return outcome, true;
        }
        outcome := keyring.AbortPrepared(doc.rotationID, f.abort);
        if outcome != Done {
          return outcome, true;
        }
        if f.statusEnd != Works {
          return f.statusEnd.Halt(), true;
        }
        return Done, false;
      }
      if doc.rotationID == "" || doc.rotationID != db.rotationID {
        return Failed, true;
      }
      if doc.phase == Prepared || doc.phase == DBCommitted {
        if doc.pending == "" {
          return Failed, true;
        }
        outcome := VerifyMaster(doc.pending, true, f.verifyPending);
        if outcome != Done {
          return outcome, true;
        }
        if doc.phase == Prepared {
          outcome := keyring.MarkDBCommitted(doc.rotationID, f.markCommitted);
          if outcome != Done {
            return outcome, true;
          }
        }
        outcome := keyring.ActivatePending(doc.rotationID, f.activate);
        if outcome != Done {
          return outcome, true;
        }
        if f.statusActivated != Works {
          return f.statusActivated.Halt(), true;
        }
      }
      var loaded := keyring.LoadActiveKey();
      if !loaded.Loaded? {
        return Failed, true;
      }
      outcome := VerifyMaster(loaded.master, true, f.verifyActive);
      if outcome != Done {
        return outcome, true;
      }
      outcome := keyring.MarkCleaned(doc.rotationID, f.clean);
      if outcome != Done {
        return outcome, true;
      }
      if f.statusEnd != Works {
        return f.statusEnd.Halt(), true;
      }
      return Done, false;
    }

    method MasterFor(environment: string) returns (key: string)
      ensures key == MasterAtStart(keyring.disk.now, environment)
    {
      if environment != "" {
        return environment;
      }
      var loaded := keyring.LoadActiveKey();
      return if loaded.Loaded? then loaded.master else "";
    }

    /** A new process: whatever ran before is gone. A safe directory stays safe, and a server that comes
        up from one does so in the invariant. */
    method Boot(environment: Environment, f: RecoveryFaults, init: Fault)
      modifies this, keyring
      ensures View() == Start(old(View()), environment, f, init)
      ensures forall secrets: set<string> ::
                Safety.Safe(old(keyring.disk), old(db), secrets) && Safety.RelayFrom(environment) <= secrets ==>
                  Safety.Invariant(View(), secrets)
    {
      ghost var before := View();
      forall secrets: set<string>
        | Safety.Safe(before.disk, before.db, secrets) && Safety.RelayFrom(environment) <= secrets
        ensures Safety.Invariant(Start(before, environment, f, init), secrets)
      {
        Safety.StartSafe(before, secrets, environment, f, init);
      }
      running := false;
      var missing := false;
      if f.status == Works {
        var read := keyring.ReadLocked();
        missing := read.NotInitialized?;
      }
      var outcome, hold := RecoverMasterRotation(f);
      if outcome != Done && !missing {
        return;
      }
      var key := MasterFor(environment.master);
      var relay := RelayAtStart(keyring.disk.now, key, environment.relay);
      if |key| < MIN_MASTER || relay == "" {
        return;
      }
      outcome := keyring.EnsureInitialized(CipherKeyID(key), key, init);
      if outcome != Done || keyring.disk.now.credentials.CorruptCredentials? || key != db.key {
        return;
      }
      live, retired, overridden := key, {}, environment.master != "";
      relayActiveEnc, relayActive := Envelope(key, relay), Digest(relay);
      maintenance, running := !missing && hold, true;
    }

    // ---- Rotation request ----

    method ResealActiveRelayUnder(newMaster: string, fault: Fault) returns (outcome: Outcome)
      requires running
      modifies this`relayActiveEnc, keyring
      ensures (View(), outcome) == ResealActive(old(View()), newMaster, fault)
    {
      if relayActiveEnc == NoRelay {
        return Done;
      }
      if !relayActiveEnc.Envelope? || (relayActiveEnc.master != live && relayActiveEnc.master !in retired) {
        return Failed;
      }
      var plain := relayActiveEnc.text;
      if Digest(plain) != relayActive {
        return Failed;
      }
      var enc := Envelope(newMaster, plain);
      outcome := ReplacePersistedRelayKey(enc, fault);
      if outcome == Done {
        relayActiveEnc := enc;
      }
    }

    /** What the deferred exit does when the handler returns; a dead process runs no defers. */
    method LeaveRotation(died: bool, exitMaintenance: bool, answer: Answer) returns (given: Answer)
      requires running
      modifies this`running, this`maintenance
      ensures (View(), given) == StopAt(old(View()), if died then Crashed else Failed, exitMaintenance, answer)
    {
      if died {
        running := false;
        return NoAnswer;
      }
      maintenance := !exitMaintenance;
      return answer;
    }

    /** From the committed database to the cleaned keyring. */
    method FinishCommitted(newMaster: string, rid: string, f: RotationFaults) returns (answer: Answer)
      requires running
      modifies this, keyring
      ensures (View(), answer) == RollForward(old(View()), newMaster, rid, f)
    {
      if f.checkDatabase != Works || db.key != newMaster {
        answer := LeaveRotation(f.checkDatabase.Dies?, false, Unresolved);
        return;
      }
      var outcome := ResealActiveRelayUnder(newMaster, f.reseal);
      if outcome != Done {
        answer := LeaveRotation(outcome.Crashed?, false, Unresolved);
        return;
      }
      if f.checkRelay != Works || !RotationRelayValid(keyring.disk.now, newMaster) {
        answer := LeaveRotation(f.checkRelay.Dies?, false, Unresolved);
        return;
      }
      outcome := keyring.MarkDBCommitted(rid, f.markCommitted);
      if outcome != Done {
        answer := LeaveRotation(outcome.Crashed?, false, Unresolved);
        return;
      }
      outcome := keyring.ActivatePending(rid, f.activate);
      if outcome != Done {
        answer := LeaveRotation(outcome.Crashed?, false, Unresolved);
        return;
      }
      if f.activateMaster != Works {
        answer := LeaveRotation(f.activateMaster.Dies?, false, Unresolved);
        return;
      }
      retired := retired + {live};
      live := newMaster;
      if f.checkLive != Works || (db.key != live && db.key !in retired) {
        answer := LeaveRotation(f.checkLive.Dies?, false, Unresolved);
        return;
      }
      if f.checkActive != Works || !RotationRelayValid(keyring.disk.now, newMaster) {
        answer := LeaveRotation(f.checkActive.Dies?, false, Unresolved);
        return;
      }
      outcome := keyring.MarkCleaned(rid, f.clean);
      if outcome != Done {
        answer := LeaveRotation(outcome.Crashed?, false, Unresolved);
        return;
      }
      retired := {};
      answer := LeaveRotation(false, true, Completed);
    }

    method HandleRewrapError(rid: string, f: RotationFaults) returns (answer: Answer)
      requires running
      modifies this`running, this`maintenance, keyring
      ensures (View(), answer) == AfterRewrapError(old(View()), rid, f)
    {
      if f.inspect != Works || db.rotationID == rid {
        answer := LeaveRotation(f.inspect.Dies?, false, Unresolved);
        return;
      }
      var outcome := keyring.AbortPrepared(rid, f.abort);
      answer := LeaveRotation(outcome.Crashed?, outcome.Done?, if outcome.Done? then RolledBack else Unresolved);
    }

    /** The handler: whatever fails or dies in it, the invariant of the three places is kept. */
    method PostBeginMasterRotation(newMaster: string, rid: string, f: RotationFaults) returns (answer: Answer)
      requires running
      modifies this, keyring
      ensures (View(), answer) == RotateMaster(old(View()), newMaster, rid, f)
      ensures forall secrets: set<string> ::
                Safety.Invariant(old(View()), secrets) && Safety.Fresh(rid, old(db)) ==>
                  Safety.Invariant(View(), secrets)
    {
      ghost var before := View();
      forall secrets: set<string> | Safety.Invariant(before, secrets) && Safety.Fresh(rid, before.db)
        ensures Safety.Invariant(RotateMaster(before, newMaster, rid, f).0, secrets)
      {
        Safety.RotateSafe(before, secrets, newMaster, rid, f);
      }
      answer := RotateStepwise(newMaster, rid, f);
    }

    method RotateStepwise(newMaster: string, rid: string, f: RotationFaults) returns (answer: Answer)
      requires running
      modifies this, keyring
      ensures (View(), answer) == RotateMaster(old(View()), newMaster, rid, f)
    {
      if maintenance {
        return Conflict;
      }
      if |newMaster| < MIN_MASTER {
        return Invalid;
      }
      if overridden {
        return Conflict;
      }
      maintenance := true;
      if f.preflight != Works {
        answer := LeaveRotation(f.preflight.Dies?, true, NotStarted);
        return;
      }
      var loaded := keyring.LoadActiveKey();
      if !loaded.Loaded? || !RotationRelayValid(keyring.disk.now, loaded.master)
         || (db.key != live && db.key !in retired) || db.key != loaded.master
      {
        answer := LeaveRotation(false, true, NotStarted);
        return;
      }
      var outcome := keyring.BeginRotation(newMaster, rid, f.begin);
      if outcome == Crashed {
        answer := LeaveRotation(true, false, NoAnswer);
        return;
      }
      if outcome == Failed {
        var status := keyring.ReadLocked();
        var between := f.status == Works && status.Found? && (status.doc.phase == Idle || status.doc.phase == Cleaned);
        answer := LeaveRotation(f.status.Dies?, between, if between then NotStarted else Unresolved);
        return;
      }
      if f.rewrap == DiesBefore {
        answer := LeaveRotation(true, false, NoAnswer);
        return;
      }
      if f.rewrap == Rejects || (db.key != live && db.key !in retired) {
        answer := HandleRewrapError(rid, f);
        return;
      }
      db := Database(newMaster, rid);
      if f.rewrap == DiesAfter {
        answer := LeaveRotation(true, false, NoAnswer);
        return;
      }
      if f.rewrap == CommitsUnreported {
        answer := HandleRewrapError(rid, f);
        return;
      }
      answer := FinishCommitted(newMaster, rid, f);
    }
  }
}
