/** Where interrupted rotations end: recovery terminates, and each rotation is all or nothing. */
module MasterRotationRecovery {
  import opened Secrets
  import opened KeyringFile
  import opened MasterRotation
  import opened MasterRotationSafety

  const CALM := VerifyFaults(Works, Works, NoFault, Works)
  const NO_RECOVERY_FAULTS :=
    RecoveryFaults(Works, Works, CALM, NoFault, CALM, NoFault, NoFault, Works, CALM, NoFault, Works)
  const NO_ROTATION_FAULTS :=
    RotationFaults(Works, NoFault, Works, Commits, Works, NoFault, Works, NoFault, Works, NoFault, NoFault,
                   Works, Works, Works, NoFault)

  /** How far recovery still has to go. */
  function Rank(phase: Phase): nat {
    match phase
    case Prepared => 3
    case DBCommitted => 2
    case KeyActivated => 1
    case Idle => 0
    case Cleaned => 0
    case Unsupported(_) => 4
  }

  /** A document somewhere inside rotation `rid` from `oldKey` to `newKey`, on the side SQLite chose. */
  predicate InRotation(doc: Document, db: Database, rid: string, oldKey: string, newKey: string) {
    var open := doc.rotationID == rid && doc.pending == newKey && doc.active == oldKey;
    if db.rotationID == rid then
      || (doc.phase.Prepared? && open)
      || (doc.phase.DBCommitted? && open)
      || (doc.phase.KeyActivated? && doc.rotationID == rid && doc.active == newKey && doc.keyID == KeyIDFor(rid))
      || (doc.phase.Cleaned? && doc.active == newKey && doc.keyID == KeyIDFor(rid))
    else
      (doc.phase.Prepared? && open) || (doc.phase.Idle? && doc.active == oldKey)
  }

  /** Both the visible and the durable keyring are inside the rotation. */
  predicate Rotating(disk: Disk, db: Database, rid: string, oldKey: string, newKey: string) {
    && disk.now.current.Keyring? && InRotation(disk.now.current.doc, db, rid, oldKey, newKey)
    && disk.stable.current.Keyring? && InRotation(disk.stable.current.doc, db, rid, oldKey, newKey)
  }

  // ---- One attempt ----

  /** A keyring call leaves the old document or the changed one, in each view. */
  lemma UpdateChoices(disk: Disk, op: Op, fault: Fault)
    requires disk.now.current.Keyring?
    ensures var (after, outcome), change := Update(disk, op, fault), Apply(disk.now.current.doc, op);
            && (!change.Changed? ==> after == disk && !outcome.Done?)
            && (change.Changed? ==>
                  && after.now.current in {disk.now.current, Keyring(change.doc)}
                  && after.stable.current in {disk.stable.current, disk.now.current, Keyring(change.doc)}
                  && (outcome.Done? ==> after.now.current == Keyring(change.doc)))
  {
  }

  lemma UpdateRotating(disk: Disk, db: Database, op: Op, fault: Fault, rid: string, oldKey: string, newKey: string)
    requires Rotating(disk, db, rid, oldKey, newKey)
    requires var doc := disk.now.current.doc;
             var change := Apply(doc, op);
             change.Changed? ==>
               InRotation(change.doc, db, rid, oldKey, newKey) && Rank(change.doc.phase) < Rank(doc.phase)
    ensures var (after, outcome) := Update(disk, op, fault);
            && Rotating(after, db, rid, oldKey, newKey)
            && Rank(after.now.current.doc.phase) <= Rank(disk.now.current.doc.phase)
            && (outcome.Done? ==> Apply(disk.now.current.doc, op).Changed?
                                  && after.now.current.doc == Apply(disk.now.current.doc, op).doc)
  {
    UpdateChoices(disk, op, fault);
  }

  lemma VerifyRotating(disk: Disk, db: Database, master: string, rollForward: bool, f: VerifyFaults,
                       rid: string, oldKey: string, newKey: string)
    requires Rotating(disk, db, rid, oldKey, newKey)
    ensures var (after, outcome) := Verify(disk, db, master, rollForward, f);
            Rotating(after, db, rid, oldKey, newKey) && after.now.current == disk.now.current
  {
  }

  lemma RecoverActivatedRotating(disk: Disk, db: Database, f: RecoveryFaults,
                                 rid: string, oldKey: string, newKey: string)
    requires Rotating(disk, db, rid, oldKey, newKey) && disk.now.current.doc.phase.KeyActivated?
    ensures var after := RecoverActivated(disk, db, rid, f).disk;
            Rotating(after, db, rid, oldKey, newKey) && Rank(after.now.current.doc.phase) <= 1
  {
    VerifyRotating(disk, db, disk.now.current.doc.active, true, f.verifyActive, rid, oldKey, newKey);
    var verified := Verify(disk, db, disk.now.current.doc.active, true, f.verifyActive).0;
    UpdateRotating(verified, db, Clean(rid), f.clean, rid, oldKey, newKey);
  }

  /** Carrying a rotation on from prepared or db_committed ends at one of these stages. */
  lemma RecoverPendingStages(disk: Disk, db: Database, doc: Document, f: RecoveryFaults)
    ensures var verified := Verify(disk, db, doc.pending, true, f.verifyPending).0;
            var marked := if doc.phase.Prepared?
                          then Update(verified, MarkCommitted(doc.rotationID), f.markCommitted).0 else verified;
            var (activated, outcome) := Update(marked, Activate(doc.rotationID), f.activate);
            var after := RecoverPending(disk, db, doc, f).disk;
            || after in {disk, verified, marked, activated}
            || (outcome.Done? && after == RecoverActivated(activated, db, doc.rotationID, f).disk)
  {
  }

  lemma RecoverPendingRotating(disk: Disk, db: Database, f: RecoveryFaults, rid: string, oldKey: string, newKey: string)
    requires Rotating(disk, db, rid, oldKey, newKey) && db.rotationID == rid
    requires disk.now.current.doc.phase.Prepared? || disk.now.current.doc.phase.DBCommitted?
    ensures var after := RecoverPending(disk, db, disk.now.current.doc, f).disk;
            && Rotating(after, db, rid, oldKey, newKey)
            && Rank(after.now.current.doc.phase) <= Rank(disk.now.current.doc.phase)
  {
    var doc := disk.now.current.doc;
    VerifyRotating(disk, db, doc.pending, true, f.verifyPending, rid, oldKey, newKey);
    var verified := Verify(disk, db, doc.pending, true, f.verifyPending).0;
    UpdateRotating(verified, db, MarkCommitted(rid), f.markCommitted, rid, oldKey, newKey);
    var marked := if doc.phase.Prepared? then Update(verified, MarkCommitted(rid), f.markCommitted).0 else verified;
    UpdateRotating(marked, db, Activate(rid), f.activate, rid, oldKey, newKey);
    var (activated, outcome) := Update(marked, Activate(rid), f.activate);
    if outcome.Done? {
      RecoverActivatedRotating(activated, db, f, rid, oldKey, newKey);
    }
    RecoverPendingStages(disk, db, doc, f);
  }

  /** A recovery attempt with any faults stays inside its rotation and never moves a phase back. */
  lemma RecoverRotating(disk: Disk, db: Database, f: RecoveryFaults, rid: string, oldKey: string, newKey: string)
    requires Rotating(disk, db, rid, oldKey, newKey) && rid != ""
    ensures var after := Recover(disk, db, f).disk;
            && Rotating(after, db, rid, oldKey, newKey)
            && Rank(after.now.current.doc.phase) <= Rank(disk.now.current.doc.phase)
  {
    var doc := disk.now.current.doc;
    if doc.phase.KeyActivated? {
      RecoverActivatedRotating(disk, db, f, rid, oldKey, newKey);
    } else if doc.phase.Prepared? && db.rotationID != rid {
      VerifyRotating(disk, db, doc.active, false, f.verifyOld, rid, oldKey, newKey);
      var verified := Verify(disk, db, doc.active, false, f.verifyOld).0;
      UpdateRotating(verified, db, Abort(rid), f.abort, rid, oldKey, newKey);
    } else if doc.phase.Prepared? || doc.phase.DBCommitted? {
      RecoverPendingRotating(disk, db, f, rid, oldKey, newKey);
    }
  }

  /** With nothing in its way, recovery succeeds from every safe directory in a single pass. */
  lemma CalmRecoverySucceeds(disk: Disk, db: Database, secrets: set<string>)
    requires Safe(disk, db, secrets)
    ensures Recover(disk, db, NO_RECOVERY_FAULTS).outcome.Done?
  {
    var doc := disk.now.current.doc;
    if doc.phase.Prepared? && doc.rotationID != db.rotationID {
      assert RecoverAborting(disk, db, doc, NO_RECOVERY_FAULTS).outcome.Done?;
    } else if doc.phase.KeyActivated? {
      CalmActivatedSucceeds(disk, db, secrets);
    } else if doc.phase.Prepared? || doc.phase.DBCommitted? {
      VerifySafe(disk, db, secrets, doc.pending, true, CALM);
      var (verified, outcome) := Verify(disk, db, doc.pending, true, CALM);
      assert outcome.Done?;
      if doc.phase.Prepared? {
        UpdateSafe(verified, db, secrets, MarkCommitted(doc.rotationID), NoFault);
      }
      var marked := if doc.phase.Prepared?
                    then Update(verified, MarkCommitted(doc.rotationID), NoFault).0 else verified;
      UpdateSafe(marked, db, secrets, Activate(doc.rotationID), NoFault);
      CalmActivatedSucceeds(Update(marked, Activate(doc.rotationID), NoFault).0, db, secrets);
    }
  }

  lemma CalmActivatedSucceeds(disk: Disk, db: Database, secrets: set<string>)
    requires Safe(disk, db, secrets) && disk.now.current.doc.phase.KeyActivated?
    ensures RecoverActivated(disk, db, disk.now.current.doc.rotationID, NO_RECOVERY_FAULTS).outcome.Done?
  {
  }

  // ---- Any number of attempts ----

  datatype Attempt = Try(faults: RecoveryFaults) | PowerCut(loss: Loss) | Flushed(pending: Loss)

  function AfterAttempts(disk: Disk, db: Database, attempts: seq<Attempt>): Disk
    decreases |attempts|
  {
    if attempts == [] then disk
    else
      var next := match attempts[0]
                  case Try(f) => Recover(disk, db, f).disk
                  case PowerCut(loss) => PowerLoss(disk, loss)
                  case Flushed(pending) => WriteOut(disk, pending);
      AfterAttempts(next, db, attempts[1..])
  }

  lemma {:induction false} AttemptsStaySafe(disk: Disk, db: Database, secrets: set<string>, attempts: seq<Attempt>)
    requires Safe(disk, db, secrets)
    ensures Safe(AfterAttempts(disk, db, attempts), db, secrets)
    decreases |attempts|
  {
    if attempts != [] {
      match attempts[0] {
        case Try(f) =>
          RecoverSafe(disk, db, secrets, f);
          AttemptsStaySafe(Recover(disk, db, f).disk, db, secrets, attempts[1..]);
        case PowerCut(loss) =>
          OutageSafe(disk, db, secrets, loss);
          AttemptsStaySafe(PowerLoss(disk, loss), db, secrets, attempts[1..]);
        case Flushed(pending) =>
          FlushSafe(disk, db, secrets, pending);
          AttemptsStaySafe(WriteOut(disk, pending), db, secrets, attempts[1..]);
      }
    }
  }

  lemma {:induction false} AttemptsStayRotating(disk: Disk, db: Database, attempts: seq<Attempt>,
                                                rid: string, oldKey: string, newKey: string)
    requires Rotating(disk, db, rid, oldKey, newKey) && rid != ""
    ensures Rotating(AfterAttempts(disk, db, attempts), db, rid, oldKey, newKey)
    decreases |attempts|
  {
    if attempts != [] {
      match attempts[0] {
        case Try(f) =>
          RecoverRotating(disk, db, f, rid, oldKey, newKey);
          AttemptsStayRotating(Recover(disk, db, f).disk, db, attempts[1..], rid, oldKey, newKey);
        case PowerCut(loss) => AttemptsStayRotating(PowerLoss(disk, loss), db, attempts[1..], rid, oldKey, newKey);
        case Flushed(pending) =>
          AttemptsStayRotating(WriteOut(disk, pending), db, attempts[1..], rid, oldKey, newKey);
      }
    }
  }

  /** Startup recovery, re-run after any number of failures, deaths and power losses at any of its
      steps, ends idle under the old master exactly when SQLite had not committed this rotation,
      and otherwise cleaned under the new one, with the database and relay key under that key. */
  lemma RecoveryEndsWhereSQLiteDecided(disk: Disk, db: Database, secrets: set<string>, attempts: seq<Attempt>,
                                       rid: string, oldKey: string, newKey: string)
    requires Safe(disk, db, secrets) && Rotating(disk, db, rid, oldKey, newKey) && rid != ""
    ensures var r := Recover(AfterAttempts(disk, db, attempts), db, NO_RECOVERY_FAULTS);
            && r.outcome.Done? && !r.hold
            && r.disk.now.current.Keyring?
            && var doc := r.disk.now.current.doc;
            && doc.phase == (if db.rotationID == rid then Cleaned else Idle)
            && doc.active == (if db.rotationID == rid then newKey else oldKey)
            && (db.rotationID == rid ==> doc.keyID == KeyIDFor(rid))
            && doc.pending == "" && db.key == doc.active
            && RelayOpens(r.disk.now, {doc.active}, secrets)
  {
    AttemptsStaySafe(disk, db, secrets, attempts);
    AttemptsStayRotating(disk, db, attempts, rid, oldKey, newKey);
    var reached := AfterAttempts(disk, db, attempts);
    CalmRecoverySucceeds(reached, db, secrets);
    RecoverSafe(reached, db, secrets, NO_RECOVERY_FAULTS);
    RecoverRotating(reached, db, NO_RECOVERY_FAULTS, rid, oldKey, newKey);
  }

  // ---- A whole rotation ----

  /** A rotation request changes the database to the new key and its own id, or not at all. */
  lemma RotateChangesDatabaseOnce(w: World, newMaster: string, rid: string, f: RotationFaults)
    requires w.process.Up?
    ensures RotateMaster(w, newMaster, rid, f).0.db in {w.db, Database(newMaster, rid)}
  {
    var entered := w.(process := w.process.(maintenance := true));
    var begun := entered.(disk := Update(entered.disk, Begin(newMaster, rid), f.begin).0);
    RollForwardKeepsDatabase(begun.(db := Database(newMaster, rid)), newMaster, rid, f);
  }

  lemma RollForwardKeepsDatabase(w: World, newMaster: string, rid: string, f: RotationFaults)
    requires w.process.Up?
    ensures RollForward(w, newMaster, rid, f).0.db == w.db
  {
  }

  /** The directory after rolling forward is the one some stage left. */
  lemma RollForwardStages(w: World, newMaster: string, rid: string, f: RotationFaults)
    requires w.process.Up?
    ensures var sealed := ResealActive(w, newMaster, f.reseal).0.disk;
            var marked := Update(sealed, MarkCommitted(rid), f.markCommitted).0;
            var activated := Update(marked, Activate(rid), f.activate).0;
            var cleaned := Update(activated, Clean(rid), f.clean).0;
            RollForward(w, newMaster, rid, f).0.disk in {w.disk, sealed, marked, activated, cleaned}
  {
  }

  lemma RollForwardRotating(w: World, newMaster: string, rid: string, f: RotationFaults, oldKey: string)
    requires w.process.Up? && w.db == Database(newMaster, rid) && Rotating(w.disk, w.db, rid, oldKey, newMaster)
    ensures var end := RollForward(w, newMaster, rid, f).0; Rotating(end.disk, w.db, rid, oldKey, newMaster)
  {
    var sealed := ResealActive(w, newMaster, f.reseal).0.disk;
    assert Rotating(sealed, w.db, rid, oldKey, newMaster);
    UpdateRotating(sealed, w.db, MarkCommitted(rid), f.markCommitted, rid, oldKey, newMaster);
    var marked := Update(sealed, MarkCommitted(rid), f.markCommitted).0;
    UpdateRotating(marked, w.db, Activate(rid), f.activate, rid, oldKey, newMaster);
    var activated := Update(marked, Activate(rid), f.activate).0;
    UpdateRotating(activated, w.db, Clean(rid), f.clean, rid, oldKey, newMaster);
    RollForwardStages(w, newMaster, rid, f);
  }

  /** Once SQLite holds the id of a rotation, the request that put it there leaves the keyring,
      visible and durable, inside that rotation. */
  lemma CommittedRequestIsRotating(w: World, secrets: set<string>, newMaster: string, rid: string, f: RotationFaults)
    requires Invariant(w, secrets) && w.process.Up? && !w.process.maintenance && Fresh(rid, w.db)
    requires RotateMaster(w, newMaster, rid, f).0.db.rotationID == rid
    ensures var stopped := RotateMaster(w, newMaster, rid, f).0;
            Rotating(stopped.disk, stopped.db, rid, w.db.key, newMaster) && stopped.db == Database(newMaster, rid)
  {
    var entered := w.(process := w.process.(maintenance := true));
    UpdateSafe(entered.disk, w.db, secrets, Begin(newMaster, rid), f.begin);
    var begun := entered.(disk := Update(entered.disk, Begin(newMaster, rid), f.begin).0);
    var committed := begun.(db := Database(newMaster, rid));
    assert Rotating(committed.disk, committed.db, rid, w.db.key, newMaster);
    RollForwardRotating(committed, newMaster, rid, f, w.db.key);
  }

  /** Stop a rotation anywhere, recover as often as it takes: the gateway ends cleaned and wholly
      under the new master if SQLite holds this rotation id, and wholly under the old one if not. */
  lemma RotationIsAllOrNothing(w: World, secrets: set<string>, newMaster: string, rid: string, f: RotationFaults,
                               attempts: seq<Attempt>)
    requires Invariant(w, secrets) && w.process.Up? && !w.process.maintenance && Fresh(rid, w.db)
    ensures var stopped := RotateMaster(w, newMaster, rid, f).0;
            var r := Recover(AfterAttempts(stopped.disk, stopped.db, attempts), stopped.db, NO_RECOVERY_FAULTS);
            && r.outcome.Done? && r.disk.now.current.Keyring?
            && var doc := r.disk.now.current.doc;
            && (doc.phase.Cleaned? || (doc.phase.Idle? && stopped.db.rotationID != rid))
            && doc.active == (if stopped.db.rotationID == rid then newMaster else w.db.key)
            && stopped.db.key == doc.active
            && RelayOpens(r.disk.now, {doc.active}, secrets)
  {
    RotateSafe(w, secrets, newMaster, rid, f);
    RotateChangesDatabaseOnce(w, newMaster, rid, f);
    var stopped := RotateMaster(w, newMaster, rid, f).0;
    if stopped.db.rotationID == rid {
      CommittedRequestIsRotating(w, secrets, newMaster, rid, f);
      RecoveryEndsWhereSQLiteDecided(stopped.disk, stopped.db, secrets, attempts, rid, w.db.key, newMaster);
    } else {
      AttemptsStaySafe(stopped.disk, stopped.db, secrets, attempts);
      var reached := AfterAttempts(stopped.disk, stopped.db, attempts);
      CalmRecoverySucceeds(reached, stopped.db, secrets);
      RecoverSafe(reached, stopped.db, secrets, NO_RECOVERY_FAULTS);
    }
  }

  // ---- When the forward protocol completes, and what it does to the relay key ----

  /** The relay key states with which an undisturbed request can finish. */
  predicate RelayCanMove(w: World, newMaster: string)
    requires w.process.Up?
  {
    match w.disk.now.credentials
    case NoCredentials => w.process.sealed.NoRelay?
    case CorruptCredentials => false
    case Credentials(p) =>
      && p.formatVersion == 1
      && !p.relayKey.PlainRelay?
      && (w.process.sealed.NoRelay? ==> OpensUnder(p.relayKey, newMaster))
  }

  /** With no fault at all, a request completes exactly when the new key is long enough, the running
      Master Key did not come from the environment, and the relay key can move. In particular it never
      completes for a deployment whose relay key comes from the environment only: the reseal needs the
      credentials file, so the database commits, maintenance stays on, and only the recovery of the
      next start finishes the rotation. */
  lemma UndisturbedRotationCompletesIff(w: World, secrets: set<string>, newMaster: string, rid: string)
    requires Invariant(w, secrets) && w.process.Up? && !w.process.maintenance && Fresh(rid, w.db)
    ensures RotateMaster(w, newMaster, rid, NO_ROTATION_FAULTS).1.Completed?
            <==> |newMaster| >= MIN_MASTER && !w.process.overridden && RelayCanMove(w, newMaster)
  {
  }

  /** A completed rotation leaves the in-memory relay key on disk. So the persisted plaintext is
      unchanged exactly when memory held that same key: an environment key that differs from the
      persisted one replaces it. */
  lemma CompletedRotationPersistsMemory(w: World, newMaster: string, rid: string, f: RotationFaults)
    requires w.process.Up? && RotateMaster(w, newMaster, rid, f).1.Completed? && w.process.sealed.Envelope?
    ensures w.disk.now.credentials.Credentials?
    ensures RotateMaster(w, newMaster, rid, f).0.disk.now.credentials
            == Credentials(w.disk.now.credentials.doc.(relayKey := Envelope(newMaster, w.process.sealed.text)))
  {
    var entered := w.(process := w.process.(maintenance := true));
    var begun := entered.(disk := Update(entered.disk, Begin(newMaster, rid), f.begin).0);
    UpdateKeepsCredentials(entered.disk, Begin(newMaster, rid), f.begin);
    var committed := begun.(db := Database(newMaster, rid));
    var sealed := ResealActive(committed, newMaster, f.reseal).0;
    var marked := Update(sealed.disk, MarkCommitted(rid), f.markCommitted).0;
    UpdateKeepsCredentials(sealed.disk, MarkCommitted(rid), f.markCommitted);
    var activated := Update(marked, Activate(rid), f.activate).0;
    UpdateKeepsCredentials(marked, Activate(rid), f.activate);
    UpdateKeepsCredentials(activated, Clean(rid), f.clean);
  }

  lemma UpdateKeepsCredentials(disk: Disk, op: Op, fault: Fault)
    ensures Update(disk, op, fault).0.now.credentials == disk.now.credentials
  {
  }
}
