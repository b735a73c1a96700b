/** What every run of rotations, recoveries, crashes and power losses keeps. */
module MasterRotationSafety {
  import opened Secrets
  import opened KeyringFile
  import opened MasterRotation

  // ---- The invariant ----

  /** Which database goes with a keyring document. */
  predicate DocumentMatches(doc: Document, db: Database) {
    && doc.active != "" && doc.keyID != ""
    && match doc.phase
       case Idle => doc.pending == "" && db.key == doc.active
       case Cleaned => doc.pending == "" && db.key == doc.active
       case Prepared =>
         && doc.pending != "" && doc.rotationID != ""
         && db.key == if db.rotationID == doc.rotationID then doc.pending else doc.active
       case DBCommitted => doc.pending != "" && doc.rotationID != "" && db == Database(doc.pending, doc.rotationID)
       case KeyActivated => doc.pending == "" && doc.rotationID != "" && db == Database(doc.active, doc.rotationID)
       case Unsupported(_) => false
  }

  /** The persisted relay key is one of `secrets`, and an envelope opens under the database's key
      or, only while a committed rotation is still prepared, under the old active key. */
  predicate RelayMatches(entries: Entries, doc: Document, db: Database, secrets: set<string>) {
    match entries.credentials
    case NoCredentials => true
    case CorruptCredentials => false
    case Credentials(p) =>
      match p.relayKey
      case NoRelay => true
      case PlainRelay(text) => text in secrets
      case Envelope(key, text) =>
        && text in secrets
        && (key == db.key || (key == doc.active && doc.phase.Prepared? && doc.rotationID == db.rotationID))
  }

  predicate Consistent(entries: Entries, db: Database, secrets: set<string>) {
    && entries.current.Keyring?
    && DocumentMatches(entries.current.doc, db)
    && RelayMatches(entries, entries.current.doc, db, secrets)
  }

  /** The directory is consistent as it is and after any power loss. */
  ghost predicate Safe(disk: Disk, db: Database, secrets: set<string>) {
    && Consistent(disk.now, db, secrets)
    && forall loss: Loss :: Consistent(PowerLoss(disk, loss).now, db, secrets)
  }

  /** While maintenance is off the keyring is between rotations and the live cipher holds its
      active key; the relay key in memory is one of `secrets` too. */
  predicate ProcessMatches(w: World, secrets: set<string>) {
    w.process.Up? ==>
      && (w.process.sealed.Envelope? ==>
            w.process.sealed.text in secrets && w.process.relayDigest == Digest(w.process.sealed.text))
      && !w.process.sealed.PlainRelay?
      && (!w.process.maintenance ==>
            && w.disk.now.current.Keyring?
            && (w.disk.now.current.doc.phase.Idle? || w.disk.now.current.doc.phase.Cleaned?)
            && w.process.live == w.disk.now.current.doc.active
            && w.process.live == w.db.key
            && OpensUnder(w.process.sealed, w.process.live))
  }

  ghost predicate Invariant(w: World, secrets: set<string>) {
    Safe(w.disk, w.db, secrets) && ProcessMatches(w, secrets)
  }

  // ---- Single writes ----

  lemma SafeSynced(disk: Disk, db: Database, secrets: set<string>)
    requires disk.now == disk.stable && Consistent(disk.now, db, secrets)
    ensures Safe(disk, db, secrets)
  {
  }

  lemma PreserveSafe(disk: Disk, db: Database, secrets: set<string>, fault: Fault)
    requires Safe(disk, db, secrets)
    ensures var (kept, outcome) := PreservePrevious(disk, fault);
            && Safe(kept, db, secrets)
            && kept.now == disk.now.(previous := kept.now.previous)
            && (outcome.Done? ==> kept.now == kept.stable)
  {
    var (kept, outcome) := PreservePrevious(disk, fault);
    if !outcome.Done? {
      forall loss: Loss ensures Consistent(PowerLoss(kept, loss).now, db, secrets) {
        assert Consistent(PowerLoss(disk, loss).now, db, secrets);
      }
    }
  }

  /** The keyring may move to any document that also fits the database and relay key of the moment. */
  lemma KeyringWriteSafe(disk: Disk, db: Database, secrets: set<string>, next: Document, fault: Fault)
    requires Safe(disk, db, secrets)
    requires Consistent(disk.now.(current := Keyring(next)), db, secrets)
    ensures var (after, outcome) := WriteKeyring(disk, next, fault);
            && Safe(after, db, secrets)
            && after.now.credentials == disk.now.credentials
            && after.now.current in {disk.now.current, Keyring(next)}
            && (outcome.Done? ==> after.now == after.stable && after.now.current == Keyring(next))
  {
    PreserveSafe(disk, db, secrets, fault);
    var (kept, outcome) := PreservePrevious(disk, fault);
    if !fault.At(1) && outcome.Done? {
      var renamed := kept.now.(current := Keyring(next));
      assert Consistent(renamed, db, secrets);
      forall loss: Loss ensures Consistent(PowerLoss(Disk(renamed, kept.now), loss).now, db, secrets) {
        assert PowerLoss(Disk(renamed, kept.now), loss).now in {kept.now, renamed};
      }
      SafeSynced(Disk(renamed, renamed), db, secrets);
    }
  }

  /** Any rotation call that the document allows and whose result fits is safe at every fault. */
  lemma UpdateSafe(disk: Disk, db: Database, secrets: set<string>, op: Op, fault: Fault)
    requires Safe(disk, db, secrets)
    requires var change := Apply(disk.now.current.doc, op);
             change.Changed? ==> Consistent(disk.now.(current := Keyring(change.doc)), db, secrets)
    ensures var (after, outcome) := Update(disk, op, fault);
            var change := Apply(disk.now.current.doc, op);
            && Safe(after, db, secrets)
            && after.now.credentials == disk.now.credentials
            && (after.now.current == disk.now.current || (change.Changed? && after.now.current == Keyring(change.doc)))
            && (outcome.Done? ==>
                  change.Changed? && after.now == after.stable && after.now.current == Keyring(change.doc))
  {
    var change := Apply(disk.now.current.doc, op);
    if change.Changed? {
      KeyringWriteSafe(disk, db, secrets, change.doc, fault);
    }
  }

  /** A credentials file with a relay key under the key the database holds fits every document that fits it. */
  lemma CredentialsWriteSafe(disk: Disk, db: Database, secrets: set<string>, doc: Persisted, fault: Fault)
    requires Safe(disk, db, secrets)
    requires doc.relayKey.Envelope? && doc.relayKey.master == db.key && doc.relayKey.text in secrets
    ensures var (after, outcome) := WriteCredentials(disk, doc, fault);
            && Safe(after, db, secrets)
            && after.now.current == disk.now.current
            && (outcome.Done? ==> after.now == after.stable && after.now.credentials == Credentials(doc))
  {
    var (after, outcome) := WriteCredentials(disk, doc, fault);
    forall loss: Loss ensures Consistent(PowerLoss(after, loss).now, db, secrets) {
      assert Consistent(PowerLoss(disk, loss).now, db, secrets);
      assert Consistent(PowerLoss(disk, loss.(credentials := false)).now, db, secrets);
    }
  }

  lemma ReplaceRelaySafe(disk: Disk, db: Database, secrets: set<string>, text: string, fault: Fault)
    requires Safe(disk, db, secrets) && text in secrets
    ensures var (after, outcome) := ReplaceRelay(disk, Envelope(db.key, text), fault);
            && Safe(after, db, secrets)
            && after.now.current == disk.now.current
            && (outcome.Done? ==> after.now == after.stable && after.now.credentials.Credentials?
                                  && after.now.credentials.doc.relayKey == Envelope(db.key, text))
  {
    if disk.now.credentials.Credentials? {
      CredentialsWriteSafe(disk, db, secrets, disk.now.credentials.doc.(relayKey := Envelope(db.key, text)), fault);
    }
  }

  // ---- Recovery ----

  lemma VerifySafe(disk: Disk, db: Database, secrets: set<string>, master: string, rollForward: bool, f: VerifyFaults)
    requires Safe(disk, db, secrets)
    requires rollForward && disk.now.current.doc.pending != "" ==> disk.now.current.doc.pending == db.key
    ensures var (after, outcome) := Verify(disk, db, master, rollForward, f);
            && Safe(after, db, secrets)
            && after.now.current == disk.now.current
            && (outcome.Done? ==> db.key == master && PersistedRelayValid(after.now, db.key))
  {
    var doc := disk.now.current.doc;
    var stored := if disk.now.credentials.Credentials? then disk.now.credentials.doc.relayKey else NoRelay;
    if rollForward && doc.pending != "" && !stored.NoRelay? {
      ReplaceRelaySafe(disk, db, secrets, stored.text, f.reseal);
    }
  }

  lemma RecoverActivatedSafe(disk: Disk, db: Database, secrets: set<string>, f: RecoveryFaults)
    requires Safe(disk, db, secrets) && disk.now.current.doc.phase.KeyActivated?
    ensures var r := RecoverActivated(disk, db, disk.now.current.doc.rotationID, f);
            && Safe(r.disk, db, secrets)
            && (r.outcome.Done? ==>
                  !r.hold && r.disk.now.current.doc.phase.Cleaned? && PersistedRelayValid(r.disk.now, db.key))
  {
    var doc := disk.now.current.doc;
    VerifySafe(disk, db, secrets, doc.active, true, f.verifyActive);
    var (verified, outcome) := Verify(disk, db, doc.active, true, f.verifyActive);
    if outcome.Done? {
      UpdateSafe(verified, db, secrets, Clean(doc.rotationID), f.clean);
    }
  }

  lemma RecoverPendingSafe(disk: Disk, db: Database, secrets: set<string>, f: RecoveryFaults)
    requires Safe(disk, db, secrets)
    requires var doc := disk.now.current.doc;
             (doc.phase.Prepared? || doc.phase.DBCommitted?) && doc.rotationID == db.rotationID
    ensures var r := RecoverPending(disk, db, disk.now.current.doc, f);
            && Safe(r.disk, db, secrets)
            && (r.outcome.Done? ==>
                  !r.hold && r.disk.now.current.doc.phase.Cleaned? && PersistedRelayValid(r.disk.now, db.key))
  {
    var doc := disk.now.current.doc;
    VerifySafe(disk, db, secrets, doc.pending, true, f.verifyPending);
    var (verified, outcome) := Verify(disk, db, doc.pending, true, f.verifyPending);
    if outcome.Done? {
      if doc.phase.Prepared? {
        UpdateSafe(verified, db, secrets, MarkCommitted(doc.rotationID), f.markCommitted);
      }
      var (marked, markOutcome) :=
        if doc.phase.Prepared? then Update(verified, MarkCommitted(doc.rotationID), f.markCommitted)
        else (verified, Done);
      if markOutcome.Done? {
        UpdateSafe(marked, db, secrets, Activate(doc.rotationID), f.activate);
        var (activated, activateOutcome) := Update(marked, Activate(doc.rotationID), f.activate);
        if activateOutcome.Done? {
          RecoverActivatedSafe(activated, db, secrets, f);
        }
      }
    }
  }

  lemma RecoverAbortingSafe(disk: Disk, db: Database, secrets: set<string>, f: RecoveryFaults)
    requires Safe(disk, db, secrets)
    requires var doc := disk.now.current.doc; doc.phase.Prepared? && doc.rotationID != db.rotationID
    ensures var r := RecoverAborting(disk, db, disk.now.current.doc, f);
            && Safe(r.disk, db, secrets)
            && (r.outcome.Done? ==> !r.hold && r.disk.now.current.doc.phase.Idle?)
  {
    var doc := disk.now.current.doc;
    VerifySafe(disk, db, secrets, doc.active, false, f.verifyOld);
    var (verified, outcome) := Verify(disk, db, doc.active, false, f.verifyOld);
    if outcome.Done? {
      UpdateSafe(verified, db, secrets, Abort(doc.rotationID), f.abort);
    }
  }

  /** Recovery stopped anywhere leaves a safe directory; when it succeeds the keyring is between
      rotations under the key the database holds, and the relay key opens under it too. */
  lemma RecoverSafe(disk: Disk, db: Database, secrets: set<string>, f: RecoveryFaults)
    requires Safe(disk, db, secrets)
    ensures var r := Recover(disk, db, f);
            && Safe(r.disk, db, secrets)
            && (r.outcome.Done? ==>
                  var doc := r.disk.now.current.doc;
                  && !r.hold && (doc.phase.Idle? || doc.phase.Cleaned?)
                  && doc.active == db.key && PersistedRelayValid(r.disk.now, db.key))
  {
    var doc := disk.now.current.doc;
    if doc.phase.KeyActivated? {
      RecoverActivatedSafe(disk, db, secrets, f);
    } else if (doc.phase.Prepared? || doc.phase.DBCommitted?) && doc.rotationID == db.rotationID {
      RecoverPendingSafe(disk, db, secrets, f);
    } else if doc.phase.Prepared? {
      RecoverAbortingSafe(disk, db, secrets, f);
    }
  }

  // ---- Forward protocol ----

  /** Rotation ids are random: a new one names neither "no rotation" nor the last committed one. */
  predicate Fresh(rid: string, db: Database) {
    rid != "" && rid != db.rotationID
  }

  lemma FinishSafe(w: World, secrets: set<string>, newMaster: string, rid: string, f: RotationFaults)
    requires Invariant(w, secrets) && w.process.Up? && w.process.maintenance
    requires w.disk.now == w.disk.stable
    requires w.disk.now.current.doc.phase.KeyActivated? && w.db == Database(newMaster, rid)
    requires OpensUnder(w.process.sealed, newMaster)
    ensures Invariant(FinishRotation(w, newMaster, rid, f).0, secrets)
  {
    UpdateSafe(w.disk, w.db, secrets, Clean(rid), f.clean);
  }

  lemma ResealActiveSafe(w: World, secrets: set<string>, newMaster: string, fault: Fault)
    requires Invariant(w, secrets) && w.process.Up? && w.process.maintenance && w.db.key == newMaster
    ensures var (after, outcome) := ResealActive(w, newMaster, fault);
            && Invariant(after, secrets)
            && after.db == w.db && after.disk.now.current == w.disk.now.current
            && after.process.Up? && after.process.maintenance
            && (outcome.Done? ==> OpensUnder(after.process.sealed, newMaster))
  {
    if w.process.sealed.Envelope? {
      ReplaceRelaySafe(w.disk, w.db, secrets, w.process.sealed.text, fault);
    }
  }

  lemma RollForwardSafe(w: World, secrets: set<string>, newMaster: string, rid: string, f: RotationFaults)
    requires Invariant(w, secrets) && w.process.Up? && w.process.maintenance
    requires w.db == Database(newMaster, rid) && rid != ""
    requires var doc := w.disk.now.current.doc; doc.phase.Prepared? && doc.rotationID == rid && doc.pending == newMaster
    ensures Invariant(RollForward(w, newMaster, rid, f).0, secrets)
  {
    ResealActiveSafe(w, secrets, newMaster, f.reseal);
    var (sealed, outcome) := ResealActive(w, newMaster, f.reseal);
    if outcome.Done? && RotationRelayValid(sealed.disk.now, newMaster) {
      UpdateSafe(sealed.disk, w.db, secrets, MarkCommitted(rid), f.markCommitted);
      var (marked, markOutcome) := Update(sealed.disk, MarkCommitted(rid), f.markCommitted);
      if markOutcome.Done? {
        UpdateSafe(marked, w.db, secrets, Activate(rid), f.activate);
        var (activated, activateOutcome) := Update(marked, Activate(rid), f.activate);
        if activateOutcome.Done? {
          FinishSafe(sealed.(disk := activated), secrets, newMaster, rid, f);
        }
      }
    }
  }

  lemma AbortSafe(w: World, secrets: set<string>, rid: string, f: RotationFaults)
    requires Invariant(w, secrets) && w.process.Up? && w.process.maintenance
    requires w.disk.now.current.doc.phase.Prepared? && w.disk.now.current.doc.rotationID == rid
    requires OpensUnder(w.process.sealed, w.process.live) && w.process.live == w.disk.now.current.doc.active
    ensures Invariant(AfterRewrapError(w, rid, f).0, secrets)
  {
    if w.db.rotationID != rid {
      UpdateSafe(w.disk, w.db, secrets, Abort(rid), f.abort);
    }
  }

  lemma RewrapSafe(w: World, secrets: set<string>, newMaster: string, rid: string, f: RotationFaults)
    requires Invariant(w, secrets) && w.process.Up? && w.process.maintenance
    requires w.disk.now == w.disk.stable && Fresh(rid, w.db)
    requires var doc := w.disk.now.current.doc; doc.phase.Prepared? && doc.rotationID == rid && doc.pending == newMaster
    requires OpensUnder(w.process.sealed, w.process.live) && w.process.live == w.disk.now.current.doc.active
    ensures Invariant(RewrapStage(w, newMaster, rid, f).0, secrets)
  {
    var committed := w.(db := Database(newMaster, rid));
    assert Consistent(w.disk.now, committed.db, secrets);
    SafeSynced(w.disk, committed.db, secrets);
    AbortSafe(w, secrets, rid, f);
    AbortSafe(committed, secrets, rid, f);
    RollForwardSafe(committed, secrets, newMaster, rid, f);
  }

  /** The handler, with an error or a crash at any of its steps and at any micro-step of any of
      its file writes, and with a commit whose result is misreported, keeps the invariant. */
  lemma RotateSafe(w: World, secrets: set<string>, newMaster: string, rid: string, f: RotationFaults)
    requires Invariant(w, secrets) && w.process.Up? && Fresh(rid, w.db)
    ensures Invariant(RotateMaster(w, newMaster, rid, f).0, secrets)
  {
    if !w.process.maintenance && |newMaster| >= MIN_MASTER && !w.process.overridden {
      var entered := w.(process := w.process.(maintenance := true));
      if PreflightPasses(entered) && f.preflight.Works? {
        UpdateSafe(entered.disk, w.db, secrets, Begin(newMaster, rid), f.begin);
        var (disk, outcome) := Update(entered.disk, Begin(newMaster, rid), f.begin);
        if outcome.Done? {
          RewrapSafe(entered.(disk := disk), secrets, newMaster, rid, f);
        }
      }
    }
  }

  // ---- Runs ----

  datatype Event =
    | Rotate(newMaster: string, rid: string, faults: RotationFaults)
    | Boot(environment: Environment, recovery: RecoveryFaults, init: Fault)
    | Kill
    | Outage(loss: Loss)
    | Flush(pending: Loss)

  function Step(w: World, event: Event): World {
    match event
    case Rotate(newMaster, rid, f) => if w.process.Up? then RotateMaster(w, newMaster, rid, f).0 else w
    case Boot(environment, f, init) => Start(w, environment, f, init)
    case Kill => w.(process := Down)
    case Outage(loss) => w.(disk := PowerLoss(w.disk, loss), process := Down)
    case Flush(pending) => w.(disk := WriteOut(w.disk, pending))
  }

  function Run(w: World, events: seq<Event>): World
    decreases |events|
  {
    if events == [] then w else Run(Step(w, events[0]), events[1..])
  }

  /** Random rotation ids do not repeat. */
  predicate Plausible(w: World, events: seq<Event>)
    decreases |events|
  {
    events == [] ||
    ((events[0].Rotate? ==> Fresh(events[0].rid, w.db)) && Plausible(Step(w, events[0]), events[1..]))
  }

  /** The relay keys that starts of the run took from the environment. */
  function FromEnvironment(events: seq<Event>): set<string>
    decreases |events|
  {
    if events == [] then {}
    else (if events[0].Boot? then RelayFrom(events[0].environment) else {}) + FromEnvironment(events[1..])
  }

  function RelayFrom(environment: Environment): set<string> {
    if environment.relay == "" then {} else {environment.relay}
  }

  lemma MoreSecrets(w: World, secrets: set<string>, more: set<string>)
    requires Invariant(w, secrets) && secrets <= more
    ensures Invariant(w, more)
  {
    forall loss: Loss ensures Consistent(PowerLoss(w.disk, loss).now, w.db, more) {
      assert Consistent(PowerLoss(w.disk, loss).now, w.db, secrets);
    }
  }

  lemma StartSafe(w: World, secrets: set<string>, environment: Environment, f: RecoveryFaults, init: Fault)
    requires Safe(w.disk, w.db, secrets) && RelayFrom(environment) <= secrets
    ensures Invariant(Start(w, environment, f, init), secrets)
  {
    RecoverSafe(w.disk, w.db, secrets, f);
  }

  /** The start of a deployment that so far kept its Master Key in the environment only: the server runs
      only once the keyring holds that key durably, and then the invariant holds. */
  lemma EnvironmentStartIsSafe(w: World, secrets: set<string>, environment: Environment, f: RecoveryFaults, init: Fault)
    requires w.disk.now.current.NoKeyring? && w.disk.now.previous.NoKeyring?
    requires RelayFrom(environment) <= secrets && RelayOpens(w.disk.now, {w.db.key}, secrets)
    ensures var after := Start(w, environment, f, init);
            after.process.Up? ==>
              && Invariant(after, secrets) && !after.process.maintenance
              && environment.master == after.db.key == after.disk.stable.current.doc.active
  {
    var after := Start(w, environment, f, init);
    if after.process.Up? {
      SafeSynced(after.disk, after.db, secrets);
    }
  }

  lemma OutageSafe(disk: Disk, db: Database, secrets: set<string>, loss: Loss)
    requires Safe(disk, db, secrets)
    ensures Safe(PowerLoss(disk, loss), db, secrets)
  {
  }

  /** Whatever the system writes out by itself, and a power loss takes back after that. */
  lemma FlushSafe(disk: Disk, db: Database, secrets: set<string>, pending: Loss)
    requires Safe(disk, db, secrets)
    ensures Safe(WriteOut(disk, pending), db, secrets)
  {
    forall loss: Loss ensures Consistent(PowerLoss(WriteOut(disk, pending), loss).now, db, secrets) {
      var both := Loss(loss.current && pending.current, loss.previous && pending.previous,
                       loss.credentials && pending.credentials, loss.journal && pending.journal);
      assert PowerLoss(WriteOut(disk, pending), loss) == PowerLoss(disk, both);
    }
  }

  lemma StepSafe(w: World, secrets: set<string>, event: Event)
    requires Invariant(w, secrets) && Plausible(w, [event])
    ensures Invariant(Step(w, event), secrets + FromEnvironment([event]))
  {
    var more := secrets + FromEnvironment([event]);
    MoreSecrets(w, secrets, more);
    match event {
      case Rotate(newMaster, rid, f) => if w.process.Up? { RotateSafe(w, more, newMaster, rid, f); }
      case Boot(environment, f, init) => StartSafe(w, more, environment, f, init);
      case Kill =>
      case Outage(loss) => OutageSafe(w.disk, w.db, more, loss);
      case Flush(pending) => FlushSafe(w.disk, w.db, more, pending);
    }
  }

  /** What the invariant means for somebody who has to open the three places. */
  ghost predicate Decryptable(w: World, secrets: set<string>) {
    && ReadKeyring(w.disk.now).Found?
    && var doc := ReadKeyring(w.disk.now).doc;
    && w.db.key in {doc.active, doc.pending} && w.db.key != ""
    && RelayOpens(w.disk.now, {doc.active, doc.pending}, secrets)
    && (w.process.Up? && !w.process.maintenance ==>
          && (doc.phase.Idle? || doc.phase.Cleaned?)
          && w.db.key == doc.active && w.process.live == doc.active
          && RelayOpens(w.disk.now, {doc.active}, secrets))
  }

  /** The flagship result. In every run of rotation requests, process deaths, power losses and
      recoveries, with any fault inside any of them and any relay key in the environment: the
      database opens under the keyring's active or pending key, the persisted relay key opens under
      one of those two and is one the deployment was given, and with maintenance off the keyring
      is between rotations and everything, including the live cipher, is under the active key. */
  lemma {:induction false} EveryRunStaysDecryptable(w: World, secrets: set<string>, events: seq<Event>)
    requires Invariant(w, secrets) && Plausible(w, events)
    ensures Invariant(Run(w, events), secrets + FromEnvironment(events))
    ensures Decryptable(Run(w, events), secrets + FromEnvironment(events))
    decreases |events|
  {
    if events == [] {
      assert secrets + FromEnvironment(events) == secrets;
    } else {
      StepSafe(w, secrets, events[0]);
      assert [events[0]][1..] == [];
      EveryRunStaysDecryptable(Step(w, events[0]), secrets + FromEnvironment([events[0]]), events[1..]);
      assert secrets + FromEnvironment([events[0]]) + FromEnvironment(events[1..]) == secrets + FromEnvironment(events);
    }
  }

  /** Where the environment gives no other relay key, the plaintext of the persisted one never changes. */
  lemma {:induction false} RelayKeyNeverChanges(w: World, secret: string, events: seq<Event>)
    requires Invariant(w, {secret}) && Plausible(w, events)
    requires forall i :: 0 <= i < |events| && events[i].Boot? ==> events[i].environment.relay in {"", secret}
    ensures Invariant(Run(w, events), {secret}) && Decryptable(Run(w, events), {secret})
  {
    EveryRunStaysDecryptable(w, {secret}, events);
    OnlyTheSecret(secret, events);
    assert {secret} + FromEnvironment(events) == {secret};
  }

  lemma {:induction false} OnlyTheSecret(secret: string, events: seq<Event>)
    requires forall i :: 0 <= i < |events| && events[i].Boot? ==> events[i].environment.relay in {"", secret}
    ensures FromEnvironment(events) <= {secret}
    decreases |events|
  {
    if events != [] {
      OnlyTheSecret(secret, events[1..]);
    }
  }

  /** Whatever relay key the credentials file holds, it is one of `secrets` and one of `keys` opens it. */
  predicate RelayOpens(entries: Entries, keys: set<string>, secrets: set<string>) {
    match entries.credentials
    case NoCredentials => true
    case CorruptCredentials => false
    case Credentials(p) =>
      match p.relayKey
      case NoRelay => true
      case PlainRelay(text) => text in secrets
      case Envelope(key, text) => key in keys && text in secrets
  }
}
