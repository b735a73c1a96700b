/** Master Key rotation phases in the keyring document, and the File object that keeps the document on disk. */
module KeyringFile {
  import opened Secrets

  datatype Op = Begin(newMaster: string, rid: string) | MarkCommitted(rid: string) | Activate(rid: string)
              | Clean(rid: string) | Abort(rid: string)

  datatype Change = Refused | Changed(doc: Document)

  datatype Loaded = Loaded(keyID: string, master: string) | NotLoaded

  /** Rotation ids are 32 hexadecimal characters, so the first twelve always exist in practice. */
  function KeyIDFor(rid: string): string {
    "mk_" + if |rid| < 12 then rid else rid[..12]
  }

  /** What each rotation call writes, given the document it read, or that it refuses. */
  function Apply(doc: Document, op: Op): Change {
    match op
    case Begin(newMaster, rid) =>
      if !doc.phase.Idle? && !doc.phase.Cleaned? then Refused
      else Changed(doc.(pending := newMaster, phase := Prepared, rotationID := rid,
                        history := doc.history + [HistoryEntry("rotate_prepared", KeyIDFor(rid))]))
    case MarkCommitted(rid) =>
      if doc.rotationID != rid || !doc.phase.Prepared? then Refused
      else
        Changed(doc.(phase := DBCommitted, history := doc.history + [HistoryEntry("rotate_db_committed", doc.keyID)]))
    case Activate(rid) =>
      if doc.rotationID != rid || !doc.phase.DBCommitted? || doc.pending == "" then Refused
      else Changed(doc.(active := doc.pending, keyID := KeyIDFor(rid), pending := "", phase := KeyActivated,
                        history := doc.history + [HistoryEntry("rotate_key_activated", KeyIDFor(rid))]))
    case Clean(rid) =>
      if doc.rotationID != rid || !doc.phase.KeyActivated? then Refused
      else Changed(doc.(phase := Cleaned, rotationID := "",
                        history := doc.history + [HistoryEntry("rotate_cleaned", doc.keyID)]))
    case Abort(rid) =>
      if doc.rotationID != rid || !doc.phase.Prepared? then Refused
      else Changed(doc.(pending := "", phase := Idle, rotationID := "",
                        history := doc.history + [HistoryEntry("rotate_aborted", doc.keyID)]))
  }

  /** One rotation call against the disk. Step 0 is the read; steps 1-7 are the write. */
  function Update(disk: Disk, op: Op, fault: Fault): (Disk, Outcome) {
    if fault.At(0) then (disk, fault.Halt())
    else match ReadKeyring(disk.now)
      case Found(doc) =>
        (match Apply(doc, op)
         case Changed(next) => WriteKeyring(disk, next, fault)
         case Refused => (disk, Failed))
      case NotInitialized => (disk, Failed)
      case Unreadable => (disk, Failed)
  }

  function LoadActive(entries: Entries): Loaded {
    match ReadKeyring(entries)
    case Found(doc) => if doc.active == "" || doc.keyID == "" then NotLoaded else Loaded(doc.keyID, doc.active)
    case NotInitialized => NotLoaded
    case Unreadable => NotLoaded
  }

  function FirstDocument(keyID: string, master: string): Document {
    Document(keyID, master, "", Idle, "", [HistoryEntry("bootstrap", keyID)])
  }

  /** A keyring file that exists, readable or not, is left alone. */
  function Initialize(disk: Disk, keyID: string, master: string, fault: Fault): (Disk, Outcome) {
    if fault.At(0) then (disk, fault.Halt())
    else if !disk.now.current.NoKeyring? then (disk, Done)
    else WriteKeyring(disk, FirstDocument(keyID, master), fault)
  }

  /** The secrets directory as the program changes it. */
  class File {
    var disk: Disk

    constructor (disk: Disk)
      ensures this.disk == disk
    {
      this.disk := disk;
    }

    method PreservePreviousLocked(fault: Fault) returns (outcome: Outcome)
      modifies this
      ensures (disk, outcome) == PreservePrevious(old(disk), fault)
    {
      if fault.At(2) {
        return fault.Halt();
      }
      if disk.now.current.NoKeyring? {
        return Done;
      }
      if disk.now.current.CorruptKeyring? {
        return Failed;
      }
      var copied := disk.now.current;
      if fault.At(3) || fault.At(4) {
        return fault.Halt();
      }
      disk := disk.(now := disk.now.(previous := copied));
      if fault.At(5) {
        return fault.Halt();
      }
      disk := Sync(disk);
      return Done;
    }

    method WriteLocked(doc: Document, fault: Fault) returns (outcome: Outcome)
      modifies this
      ensures (disk, outcome) == WriteKeyring(old(disk), doc, fault)
    {
      if fault.At(1) {
        return fault.Halt();
      }
      outcome := PreservePreviousLocked(fault);
      if !outcome.Done? {
        return;
      }
      if fault.At(6) {
        return fault.Halt();
      }
      disk := disk.(now := disk.now.(current := Keyring(doc)));
      if fault.At(7) {
        return fault.Halt();
      }
      disk := Sync(disk);
    }

    method ReadLocked() returns (result: ReadResult)
      ensures result == ReadKeyring(disk.now)
    {
      if disk.now.current.Keyring? {
        return Found(disk.now.current.doc);
      }
      if disk.now.previous.Keyring? {
        return Found(disk.now.previous.doc);
      }
      if disk.now.current.NoKeyring? && disk.now.previous.NoKeyring? {
        return NotInitialized;
      }
      return Unreadable;
    }

    method BeginRotation(newMaster: string, rid: string, fault: Fault) returns (outcome: Outcome)
      modifies this
      ensures (disk, outcome) == Update(old(disk), Begin(newMaster, rid), fault)
    {
      if fault.At(0) {
        return fault.Halt();
      }
      var read := ReadLocked();
      if !read.Found? {
        return Failed;
      }
      var doc := read.doc;
      if doc.phase != Idle && doc.phase != Cleaned {
        return Failed;
      }
      var newID := KeyIDFor(rid);
      doc := doc.(pending := newMaster);
      doc := doc.(phase := Prepared);
      doc := doc.(rotationID := rid);
      doc := doc.(history := doc.history + [HistoryEntry("rotate_prepared", newID)]);
      outcome := WriteLocked(doc, fault);
    }

    method Advance(rid: string, from: Phase, to: Phase, action: string, fault: Fault) returns (outcome: Outcome)
      modifies this
      ensures !fault.At(0) && ReadKeyring(old(disk).now).Found? ==>
                var doc := ReadKeyring(old(disk).now).doc;
                if doc.rotationID != rid || doc.phase != from then disk == old(disk) && outcome == Failed
                else
                  var next := doc.(phase := to, history := doc.history + [HistoryEntry(action, doc.keyID)],
                                   rotationID := if to == Cleaned then "" else doc.rotationID);
                  (disk, outcome) == WriteKeyring(old(disk), next, fault)
      ensures fault.At(0) || !ReadKeyring(old(disk).now).Found? ==>
                disk == old(disk) && outcome == if fault.At(0) then fault.Halt() else Failed
    {
      if fault.At(0) {
        return fault.Halt();
      }
      var read := ReadLocked();
      if !read.Found? {
        return Failed;
      }
      var doc := read.doc;
      if doc.rotationID != rid || doc.phase != from {
        return Failed;
      }
      doc := doc.(phase := to);
      doc := doc.(history := doc.history + [HistoryEntry(action, doc.keyID)]);
      if to == Cleaned {
        doc := doc.(rotationID := "");
      }
      outcome := WriteLocked(doc, fault);
    }

    method MarkDBCommitted(rid: string, fault: Fault) returns (outcome: Outcome)
      modifies this
      ensures (disk, outcome) == Update(old(disk), MarkCommitted(rid), fault)
    {
      outcome := Advance(rid, Prepared, DBCommitted, "rotate_db_committed", fault);
    }

    method ActivatePending(rid: string, fault: Fault) returns (outcome: Outcome)
      modifies this
      ensures (disk, outcome) == Update(old(disk), Activate(rid), fault)
    {
      if fault.At(0) {
        return fault.Halt();
      }
      var read := ReadLocked();
      if !read.Found? {
        return Failed;
      }
      var doc := read.doc;
      if doc.rotationID != rid || doc.phase != DBCommitted || doc.pending == "" {
        return Failed;
      }
      var newKeyID := KeyIDFor(rid);
      doc := doc.(active := doc.pending);
      doc := doc.(keyID := newKeyID);
      doc := doc.(pending := "");
      doc := doc.(phase := KeyActivated);
      doc := doc.(history := doc.history + [HistoryEntry("rotate_key_activated", newKeyID)]);
      outcome := WriteLocked(doc, fault);
    }

    method MarkCleaned(rid: string, fault: Fault) returns (outcome: Outcome)
      modifies this
      ensures (disk, outcome) == Update(old(disk), Clean(rid), fault)
    {
      outcome := Advance(rid, KeyActivated, Cleaned, "rotate_cleaned", fault);
    }

    method AbortPrepared(rid: string, fault: Fault) returns (outcome: Outcome)
      modifies this
      ensures (disk, outcome) == Update(old(disk), Abort(rid), fault)
    {
      if fault.At(0) {
        return fault.Halt();
      }
      var read := ReadLocked();
      if !read.Found? {
        return Failed;
      }
      var doc := read.doc;
      if doc.rotationID != rid || doc.phase != Prepared {
        return Failed;
      }
      doc := doc.(pending := "");
      doc := doc.(phase := Idle);
      doc := doc.(rotationID := "");
      doc := doc.(history := doc.history + [HistoryEntry("rotate_aborted", doc.keyID)]);
      outcome := WriteLocked(doc, fault);
    }

    method EnsureInitialized(keyID: string, master: string, fault: Fault) returns (outcome: Outcome)
      modifies this
      ensures (disk, outcome) == Initialize(old(disk), keyID, master, fault)
    {
      if fault.At(0) {
        return fault.Halt();
      }
      if !disk.now.current.NoKeyring? {
        return Done;
      }
      outcome := WriteLocked(FirstDocument(keyID, master), fault);
    }

    method LoadActiveKey() returns (loaded: Loaded)
      ensures loaded == LoadActive(disk.now)
    {
      var read := ReadLocked();
      if !read.Found? || read.doc.active == "" || read.doc.keyID == "" {
        return NotLoaded;
      }
      return Loaded(read.doc.keyID, read.doc.active);
    }

    /** Replaces bootstrap-credentials.json through a temporary file and a rename. */
    method WriteCredentialsFile(doc: Persisted, fault: Fault) returns (outcome: Outcome)
      modifies this
      ensures (disk, outcome) == WriteCredentials(old(disk), doc, fault)
    {
      if fault.At(1) || fault.At(2) {
        return fault.Halt();
      }
      disk := disk.(now := disk.now.(credentials := Credentials(doc)));
      if fault.At(3) {
        return fault.Halt();
      }
      disk := Sync(disk);
      return Done;
    }

    method WriteJournalFile(phase: BootPhase, keyID: string, fault: Fault) returns (outcome: Outcome)
      modifies this
      ensures (disk, outcome) == WriteJournal(old(disk), phase, keyID, fault)
    {
      if fault.At(1) || fault.At(2) {
        return fault.Halt();
      }
      disk := disk.(now := disk.now.(journal := Journal(phase, keyID)));
      if fault.At(3) {
        return fault.Halt();
      }
      disk := Sync(disk);
      return Done;
    }
  }

  // ---- Runs of rotation calls over one document ----

  function ApplyAll(doc: Document, ops: seq<Op>): Document
    decreases |ops|
  {
    if ops == [] then doc
    else match Apply(doc, ops[0])
      case Changed(next) => ApplyAll(next, ops[1..])
      case Refused => ApplyAll(doc, ops[1..])
  }

  /** A document between rotations, or inside rotation `rotationID` with the pending key it needs. */
  predicate PhaseValid(doc: Document) {
    match doc.phase
    case Idle => doc.pending == "" && doc.rotationID == ""
    case Cleaned => doc.pending == "" && doc.rotationID == ""
    case Prepared => doc.pending != "" && doc.rotationID != ""
    case DBCommitted => doc.pending != "" && doc.rotationID != ""
    case KeyActivated => doc.pending == "" && doc.rotationID != ""
    case Unsupported(_) => false
  }

  predicate Supplied(ops: seq<Op>, key: string)
    decreases |ops|
  {
    ops != [] && ((ops[0].Begin? && ops[0].newMaster == key) || Supplied(ops[1..], key))
  }

  /** Whatever calls arrive in whatever order, the phase, pending key and rotation id stay
      consistent, the audit history only grows, and the active key changes only to a key that a
      Begin call of this run, or the document's own pending key, supplied. */
  lemma {:induction false} PhasesStayConsistent(doc: Document, ops: seq<Op>)
    requires PhaseValid(doc)
    requires forall i :: 0 <= i < |ops| && ops[i].Begin? ==> ops[i].newMaster != "" && ops[i].rid != ""
    ensures var after := ApplyAll(doc, ops);
            && PhaseValid(after)
            && doc.history <= after.history
            && (|| after.active == doc.active || (after.active == doc.pending && doc.pending != "")
                || Supplied(ops, after.active))
            && (after.pending in {"", doc.pending} || Supplied(ops, after.pending))
    decreases |ops|
  {
    if ops != [] {
      var change := Apply(doc, ops[0]);
      PhasesStayConsistent(if change.Changed? then change.doc else doc, ops[1..]);
    }
  }
}
