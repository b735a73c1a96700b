/** Master Key rotation over three durable places: the keyring document, the SQLite database and
    the persisted relay key. Forward protocol, startup recovery, and the process between them. */
module MasterRotation {
  import opened Secrets
  import opened KeyringFile

  /** The master key every protected row opens under, and the rotation id committed with it. */
  datatype Database = Database(key: string, rotationID: string)

  /** A step with no durable effect of its own: it works, reports an error, or the process dies there. */
  datatype Step = Works | Breaks | Dies {
    function Halt(): Outcome {
      if Dies? then Crashed else Failed
    }
  }

  /** What SQLite did with the rewrap transaction, and whether the program learned of it. */
  datatype RewrapFault = Commits | Rejects | CommitsUnreported | DiesBefore | DiesAfter

  /** The running server: its maintenance flag, the live cipher with retired keys, the in-memory
      envelope and digest of the active relay key, and whether its Master Key came from the environment. */
  datatype Process =
    | Down
    | Up(maintenance: bool, live: string, retired: set<string>, sealed: StoredRelay, relayDigest: Digest,
         overridden: bool)

  datatype World = World(disk: Disk, db: Database, process: Process)

  // ---- Relay key on disk ----

  predicate OpensUnder(stored: StoredRelay, master: string) {
    stored.Envelope? ==> stored.master == master
  }

  /** The check the handler runs: only an absent file, an empty field or an envelope passes. */
  predicate RotationRelayValid(entries: Entries, master: string) {
    match entries.credentials
    case NoCredentials => true
    case CorruptCredentials => false
    case Credentials(doc) => doc.formatVersion == 1 && !doc.relayKey.PlainRelay? && OpensUnder(doc.relayKey, master)
  }

  /** The check recovery runs: legacy plaintext also passes. */
  predicate PersistedRelayValid(entries: Entries, master: string) {
    match entries.credentials
    case NoCredentials => true
    case CorruptCredentials => false
    case Credentials(doc) => OpensUnder(doc.relayKey, master)
  }

  function ReplaceRelay(disk: Disk, sealed: StoredRelay, fault: Fault): (Disk, Outcome) {
    if fault.At(0) then (disk, fault.Halt())
    else if !disk.now.credentials.Credentials? then (disk, Failed)
    else WriteCredentials(disk, disk.now.credentials.doc.(relayKey := sealed), fault)
  }

  function ResealUnderPending(disk: Disk, fault: Fault): (Disk, Outcome) {
    match disk.now.credentials
    case NoCredentials => (disk, Done)
    case CorruptCredentials => (disk, Failed)
    case Credentials(doc) =>
      if doc.relayKey.NoRelay? then (disk, Done)
      else
        var read := ReadKeyring(disk.now);
        var loaded := LoadActive(disk.now);
        if !read.Found? || read.doc.pending == "" then (disk, Failed)
        else if doc.relayKey.PlainRelay? then ReplaceRelay(disk, Envelope(read.doc.pending, doc.relayKey.text), fault)
        else if doc.relayKey.master == read.doc.pending then (disk, Done)
        else if loaded.Loaded? && doc.relayKey.master == loaded.master then
          ReplaceRelay(disk, Envelope(read.doc.pending, doc.relayKey.text), fault)
        else (disk, Failed)
  }

  const MIN_MASTER := 16

  // ---- Startup recovery ----

  datatype VerifyFaults = VerifyFaults(database: Step, status: Step, reseal: Fault, relay: Step)

  /** The verification callback. The database never changes here; the relay key may be resealed. */
  function Verify(disk: Disk, db: Database, master: string, rollForward: bool, f: VerifyFaults): (Disk, Outcome) {
    if !f.database.Works? then (disk, f.database.Halt())
    else if db.key != master then (disk, Failed)
    else if !f.status.Works? then (disk, f.status.Halt())
    else
      var read := ReadKeyring(disk.now);
      if !read.Found? then (disk, Failed)
      else
        var (resealed, outcome) :=
          if rollForward && read.doc.pending != "" then ResealUnderPending(disk, f.reseal) else (disk, Done);
        if !outcome.Done? then (resealed, outcome)
        else if !f.relay.Works? then (resealed, f.relay.Halt())
        else (resealed, if PersistedRelayValid(resealed.now, master) then Done else Failed)
  }

  datatype RecoveryFaults = RecoveryFaults(
    status: Step, committedID: Step, verifyOld: VerifyFaults, abort: Fault,
    verifyPending: VerifyFaults, markCommitted: Fault, activate: Fault, statusActivated: Step,
    verifyActive: VerifyFaults, clean: Fault, statusEnd: Step)

  /** Recovery ends with an error or death, or done; `hold` is what it answers about maintenance. */
  datatype Recovered = Recovered(disk: Disk, outcome: Outcome, hold: bool)

  /** A closing step: its own outcome decides, then the final status read. */
  function Closing(result: (Disk, Outcome), status: Step): Recovered {
    var (disk, outcome) := result;
    if !outcome.Done? then Recovered(disk, outcome, true)
    else if !status.Works? then Recovered(disk, status.Halt(), true)
    else Recovered(disk, Done, false)
  }

  /** From key_activated: verify the new active key against everything, then mark cleaned. */
  function RecoverActivated(disk: Disk, db: Database, rid: string, f: RecoveryFaults): Recovered {
    var loaded := LoadActive(disk.now);
    if !loaded.Loaded? then Recovered(disk, Failed, true)
    else
      var (verified, outcome) := Verify(disk, db, loaded.master, true, f.verifyActive);
      if !outcome.Done? then Recovered(verified, outcome, true)
      else Closing(Update(verified, Clean(rid), f.clean), f.statusEnd)
  }

  /** From prepared or db_committed with a matching database: verify pending, then activate it. */
  function RecoverPending(disk: Disk, db: Database, doc: Document, f: RecoveryFaults): Recovered {
    if doc.pending == "" then Recovered(disk, Failed, true)
    else
      var (verified, outcome) := Verify(disk, db, doc.pending, true, f.verifyPending);
      if !outcome.Done? then Recovered(verified, outcome, true)
      else
        var (marked, markOutcome) :=
          if doc.phase.Prepared? then Update(verified, MarkCommitted(doc.rotationID), f.markCommitted)
          else (verified, Done);
        if !markOutcome.Done? then Recovered(marked, markOutcome, true)
        else
          var (activated, activateOutcome) := Update(marked, Activate(doc.rotationID), f.activate);
          if !activateOutcome.Done? then Recovered(activated, activateOutcome, true)
          else if !f.statusActivated.Works? then Recovered(activated, f.statusActivated.Halt(), true)
          else RecoverActivated(activated, db, doc.rotationID, f)
  }

  /** Prepared while SQLite has not committed this rotation: verify the old key, then abort. */
  function RecoverAborting(disk: Disk, db: Database, doc: Document, f: RecoveryFaults): Recovered {
    var loaded := LoadActive(disk.now);
    if !loaded.Loaded? then Recovered(disk, Failed, true)
    else
      var (verified, outcome) := Verify(disk, db, loaded.master, false, f.verifyOld);
      if !outcome.Done? then Recovered(verified, outcome, true)
      else Closing(Update(verified, Abort(doc.rotationID), f.abort), f.statusEnd)
  }

  function Recover(disk: Disk, db: Database, f: RecoveryFaults): Recovered {
    if !f.status.Works? then Recovered(disk, f.status.Halt(), false)
    else
      var read := ReadKeyring(disk.now);
      if !read.Found? then Recovered(disk, Failed, false)
      else
        var doc := read.doc;
        if doc.phase.Idle? || doc.phase.Cleaned? then Recovered(disk, Done, false)
        else if doc.phase.Unsupported? then Recovered(disk, Failed, true)
        else if !f.committedID.Works? then Recovered(disk, f.committedID.Halt(), true)
        else if doc.phase.Prepared? && doc.rotationID != db.rotationID then RecoverAborting(disk, db, doc, f)
        else if doc.rotationID == "" || doc.rotationID != db.rotationID then Recovered(disk, Failed, true)
        else if doc.phase.KeyActivated? then RecoverActivated(disk, db, doc.rotationID, f)
        else RecoverPending(disk, db, doc, f)
  }

  // ---- Forward protocol ----

  datatype RotationFaults = RotationFaults(
    preflight: Step, begin: Fault, status: Step, rewrap: RewrapFault, inspect: Step, abort: Fault,
    checkDatabase: Step, reseal: Fault, checkRelay: Step, markCommitted: Fault, activate: Fault,
    activateMaster: Step, checkLive: Step, checkActive: Step, clean: Fault)

  datatype Answer = Conflict | Invalid | NotStarted | RolledBack | Unresolved | Completed | NoAnswer

  function Lift(process: Process, lift: bool): Process {
    if process.Up? then process.(maintenance := !lift) else process
  }

  /** A request that stops: a dead process answers nothing, an error keeps or lifts maintenance. */
  function StopAt(w: World, outcome: Outcome, lift: bool, answer: Answer): (World, Answer) {
    if outcome.Crashed? then (w.(process := Down), NoAnswer)
    else (w.(process := Lift(w.process, lift)), answer)
  }

  predicate LiveOpens(process: Process, key: string) {
    process.Up? && (key == process.live || key in process.retired)
  }

  /** Every check before BeginRotation: the keyring's active key opens the relay key and a backup
      of the database, and the live cipher opens the database. */
  predicate PreflightPasses(w: World) {
    var loaded := LoadActive(w.disk.now);
    && loaded.Loaded?
    && RotationRelayValid(w.disk.now, loaded.master)
    && LiveOpens(w.process, w.db.key)
    && w.db.key == loaded.master
  }

  function ResealActive(w: World, newMaster: string, fault: Fault): (World, Outcome)
    requires w.process.Up?
  {
    if w.process.sealed.NoRelay? then (w, Done)
    else if !w.process.sealed.Envelope? || !LiveOpens(w.process, w.process.sealed.master) then (w, Failed)
    else if Digest(w.process.sealed.text) != w.process.relayDigest then (w, Failed)
    else
      var enc := Envelope(newMaster, w.process.sealed.text);
      var (disk, outcome) := ReplaceRelay(w.disk, enc, fault);
      (w.(disk := disk, process := if outcome.Done? then w.process.(sealed := enc) else w.process), outcome)
  }

  /** After activation on disk: switch the live cipher, verify all three places, clean up. */
  function FinishRotation(w: World, newMaster: string, rid: string, f: RotationFaults): (World, Answer)
    requires w.process.Up?
  {
    if !f.activateMaster.Works? then StopAt(w, f.activateMaster.Halt(), false, Unresolved)
    else
      var live := w.(process := w.process.(live := newMaster, retired := w.process.retired + {w.process.live}));
      if !f.checkLive.Works? then StopAt(live, f.checkLive.Halt(), false, Unresolved)
      else if !LiveOpens(live.process, live.db.key) then StopAt(live, Failed, false, Unresolved)
      else if !f.checkActive.Works? then StopAt(live, f.checkActive.Halt(), false, Unresolved)
      else if !RotationRelayValid(live.disk.now, newMaster) then StopAt(live, Failed, false, Unresolved)
      else
        var (disk, outcome) := Update(live.disk, Clean(rid), f.clean);
        var cleaned := live.(disk := disk);
        if !outcome.Done? then StopAt(cleaned, outcome, false, Unresolved)
        else (cleaned.(process := cleaned.process.(retired := {}, maintenance := false)), Completed)
  }

  /** From a committed database: reseal the relay key, then move the keyring forward. */
  function RollForward(w: World, newMaster: string, rid: string, f: RotationFaults): (World, Answer)
    requires w.process.Up?
  {
    if !f.checkDatabase.Works? then StopAt(w, f.checkDatabase.Halt(), false, Unresolved)
    else if w.db.key != newMaster then StopAt(w, Failed, false, Unresolved)
    else
      var (sealed, outcome) := ResealActive(w, newMaster, f.reseal);
      if !outcome.Done? then StopAt(sealed, outcome, false, Unresolved)
      else if !f.checkRelay.Works? then StopAt(sealed, f.checkRelay.Halt(), false, Unresolved)
      else if !RotationRelayValid(sealed.disk.now, newMaster) then StopAt(sealed, Failed, false, Unresolved)
      else
        var (marked, markOutcome) := Update(sealed.disk, MarkCommitted(rid), f.markCommitted);
        if !markOutcome.Done? then StopAt(sealed.(disk := marked), markOutcome, false, Unresolved)
        else
          var (activated, activateOutcome) := Update(marked, Activate(rid), f.activate);
          if !activateOutcome.Done? then StopAt(sealed.(disk := activated), activateOutcome, false, Unresolved)
          else FinishRotation(sealed.(disk := activated), newMaster, rid, f)
  }

  /** The rewrap reported an error: only a database that proves this rotation absent allows an abort. */
  function AfterRewrapError(w: World, rid: string, f: RotationFaults): (World, Answer)
    requires w.process.Up?
  {
    if f.inspect.Dies? then StopAt(w, Crashed, false, NoAnswer)
    else if f.inspect.Breaks? || w.db.rotationID == rid then StopAt(w, Failed, false, Unresolved)
    else
      var (disk, outcome) := Update(w.disk, Abort(rid), f.abort);
      StopAt(w.(disk := disk), if outcome.Done? then Failed else outcome, outcome.Done?,
             if outcome.Done? then RolledBack else Unresolved)
  }

  function RewrapStage(w: World, newMaster: string, rid: string, f: RotationFaults): (World, Answer)
    requires w.process.Up?
  {
    var committed := w.(db := Database(newMaster, rid));
    if f.rewrap.DiesBefore? then StopAt(w, Crashed, false, NoAnswer)
    else if f.rewrap.Rejects? || !LiveOpens(w.process, w.db.key) then AfterRewrapError(w, rid, f)
    else if f.rewrap.DiesAfter? then StopAt(committed, Crashed, false, NoAnswer)
    else if f.rewrap.CommitsUnreported? then AfterRewrapError(committed, rid, f)
    else RollForward(committed, newMaster, rid, f)
  }

  /** A failed BeginRotation lifts maintenance only if the keyring is read back between rotations. */
  function AfterBeginError(w: World, f: RotationFaults): (World, Answer)
    requires w.process.Up?
  {
    if f.status.Dies? then StopAt(w, Crashed, false, NoAnswer)
    else
      var read := ReadKeyring(w.disk.now);
      var between := f.status.Works? && read.Found? && (read.doc.phase.Idle? || read.doc.phase.Cleaned?);
      StopAt(w, Failed, between, if between then NotStarted else Unresolved)
  }

  function RotateMaster(w: World, newMaster: string, rid: string, f: RotationFaults): (World, Answer)
    requires w.process.Up?
  {
    if w.process.maintenance then (w, Conflict)
    else if |newMaster| < MIN_MASTER then (w, Invalid)
    else if w.process.overridden then (w, Conflict)
    else
      var entered := w.(process := w.process.(maintenance := true));
      if !f.preflight.Works? then StopAt(entered, f.preflight.Halt(), true, NotStarted)
      else if !PreflightPasses(entered) then StopAt(entered, Failed, true, NotStarted)
      else
        var (disk, outcome) := Update(entered.disk, Begin(newMaster, rid), f.begin);
        var begun := entered.(disk := disk);
        if outcome.Crashed? then StopAt(begun, Crashed, false, NoAnswer)
        else if outcome.Failed? then AfterBeginError(begun, f)
        else RewrapStage(begun, newMaster, rid, f)
  }

  // ---- Process start ----

  /** The relay key a starting server installs: the environment's, or the one it opens from disk. */
  function RelayAtStart(entries: Entries, master: string, environment: string): string {
    if environment != "" then environment
    else match entries.credentials
      case Credentials(doc) =>
        (match doc.relayKey
         case NoRelay => ""
         case PlainRelay(text) => text
         case Envelope(key, text) => if key == master then text else "")
      case NoCredentials => ""
      case CorruptCredentials => ""
  }

  /** What the environment of a process supplies; empty texts where it does not. */
  datatype Environment = Environment(master: string, relay: string)

  /** The key id a cipher gives itself: an injective stand-in. */
  function CipherKeyID(master: string): string {
    "cipher of " + master
  }

  /** The Master Key a start uses: the environment's, or the keyring's active one. */
  function MasterAtStart(entries: Entries, environment: string): string {
    if environment != "" then environment
    else match LoadActive(entries)
      case Loaded(_, master) => master
      case NotLoaded => ""
  }

  /** Recovery first (a missing keyring has nothing to recover), then the keys, the keyring if there is
      none yet, and the database. Without a usable key of either kind, or with a key the database does
      not open under, there is no start. */
  function Start(w: World, environment: Environment, f: RecoveryFaults, init: Fault): World {
    var missing := f.status.Works? && ReadKeyring(w.disk.now).NotInitialized?;
    var recovered := Recover(w.disk, w.db, f);
    var after := w.(disk := recovered.disk, process := Down);
    var key := MasterAtStart(after.disk.now, environment.master);
    var relay := RelayAtStart(after.disk.now, key, environment.relay);
    if (!missing && !recovered.outcome.Done?) || |key| < MIN_MASTER || relay == "" then after
    else
      var (disk, outcome) := Initialize(after.disk, CipherKeyID(key), key, init);
      var keyed := after.(disk := disk);
      if !outcome.Done? || disk.now.credentials.CorruptCredentials? || key != w.db.key then keyed
      else
        keyed.(process := Up(!missing && recovered.hold, key, {}, Envelope(key, relay), Digest(relay),
                             environment.master != ""))
  }
}
