/** The data/secrets directory: which files it holds, what is visible in it and what a power
    loss can still undo, and the two ways the gateway replaces a file in it. */
module Secrets {

  /** Rotation phase of the keyring. A phase name the program does not know is kept as read. */
  datatype Phase = Idle | Prepared | DBCommitted | KeyActivated | Cleaned | Unsupported(name: string)

  datatype HistoryEntry = HistoryEntry(action: string, keyID: string)

  /** The keyring document. The empty string stands for an absent pending key or rotation id. */
  datatype Document = Document(keyID: string, active: string, pending: string, phase: Phase,
                               rotationID: string, history: seq<HistoryEntry>)

  datatype KeyringContent = NoKeyring | CorruptKeyring | Keyring(doc: Document)

  /** The relay_key field: absent, legacy plaintext, or an envelope under a master key. */
  datatype StoredRelay = NoRelay | PlainRelay(text: string) | Envelope(master: string, text: string)

  /** Irreversible digests and password hashes are injective constructors. */
  datatype Digest = Digest(text: string)
  datatype AdminHash = NoHash | Argon2(password: string)
  datatype Grace = NoGrace | Grace(digest: Digest, deadline: int)

  datatype Persisted = Persisted(formatVersion: int, adminHash: AdminHash, relayKey: StoredRelay,
                                 grace: Grace, masterKeyID: string)
  datatype CredentialsContent = NoCredentials | CorruptCredentials | Credentials(doc: Persisted)

  datatype BootPhase = BootPrepared | CredentialsPersisted | Displayed | UnknownBoot(name: string)
  datatype JournalContent = NoJournal | CorruptJournal | Journal(phase: BootPhase, keyID: string)

  datatype Entries = Entries(current: KeyringContent, previous: KeyringContent,
                             credentials: CredentialsContent, journal: JournalContent)

  /** `now` is what a read sees. `stable` is what the last directory fsync made durable: a rename
      after it is visible, but a power loss may take it back. */
  datatype Disk = Disk(now: Entries, stable: Entries)

  /** Which not yet synced renames a power loss takes back. */
  datatype Loss = Loss(current: bool, previous: bool, credentials: bool, journal: bool)

  function Sync(disk: Disk): Disk {
    Disk(disk.now, disk.now)
  }

  function PowerLoss(disk: Disk, loss: Loss): Disk {
    var left := Entries(
      if loss.current then disk.stable.current else disk.now.current,
      if loss.previous then disk.stable.previous else disk.now.previous,
      if loss.credentials then disk.stable.credentials else disk.now.credentials,
      if loss.journal then disk.stable.journal else disk.now.journal);
    Disk(left, left)
  }

  /** The system may write renames out before anybody asks for it: all but those in `pending`. */
  function WriteOut(disk: Disk, pending: Loss): Disk {
    Disk(disk.now, PowerLoss(disk, pending).now)
  }

  /** At most one thing goes wrong in a file operation, because the operation stops there: a
      numbered step reports an error, or the process dies just before its effect is complete. */
  datatype Fault = NoFault | Fail(step: nat) | Crash(step: nat) {
    predicate At(n: nat) {
      (Fail? || Crash?) && step == n
    }
    function Halt(): Outcome {
      if Crash? then Crashed else Failed
    }
  }

  datatype Outcome = Done | Failed | Crashed

  // ---- Keyring file ----

  datatype ReadResult = Found(doc: Document) | NotInitialized | Unreadable

  /** A parsed current file always wins; keyring.previous answers only for a missing or corrupt one. */
  function ReadKeyring(entries: Entries): ReadResult {
    match entries.current
    case Keyring(doc) => Found(doc)
    case NoKeyring =>
      (match entries.previous
       case Keyring(doc) => Found(doc)
       case NoKeyring => NotInitialized
       case CorruptKeyring => Unreadable)
    case CorruptKeyring =>
      if entries.previous.Keyring? then Found(entries.previous.doc) else Unreadable
  }

  /** Steps 2-5: read current, write the previous copy, rename it, sync the directory. */
  function PreservePrevious(disk: Disk, fault: Fault): (Disk, Outcome) {
    if fault.At(2) then (disk, fault.Halt())
    else match disk.now.current
      case NoKeyring => (disk, Done)
      case CorruptKeyring => (disk, Failed)
      case Keyring(_) =>
        if fault.At(3) || fault.At(4) then (disk, fault.Halt())
        else
          var renamed := disk.(now := disk.now.(previous := disk.now.current));
          if fault.At(5) then (renamed, fault.Halt()) else (Sync(renamed), Done)
  }

  /** Step 1 writes the synced temporary file, 6 renames it over current, 7 syncs the directory. */
  function WriteKeyring(disk: Disk, doc: Document, fault: Fault): (Disk, Outcome) {
    if fault.At(1) then (disk, fault.Halt())
    else
      var (kept, outcome) := PreservePrevious(disk, fault);
      if !outcome.Done? then (kept, outcome)
      else if fault.At(6) then (kept, fault.Halt())
      else
        var renamed := kept.(now := kept.now.(current := Keyring(doc)));
        if fault.At(7) then (renamed, fault.Halt()) else (Sync(renamed), Done)
  }

  // ---- JSON files (credentials and journals): 1 temporary file, 2 rename, 3 directory sync ----

  function WriteCredentials(disk: Disk, doc: Persisted, fault: Fault): (Disk, Outcome) {
    if fault.At(1) || fault.At(2) then (disk, fault.Halt())
    else
      var renamed := disk.(now := disk.now.(credentials := Credentials(doc)));
      if fault.At(3) then (renamed, fault.Halt()) else (Sync(renamed), Done)
  }

  function WriteJournal(disk: Disk, phase: BootPhase, keyID: string, fault: Fault): (Disk, Outcome) {
    if fault.At(1) || fault.At(2) then (disk, fault.Halt())
    else
      var renamed := disk.(now := disk.now.(journal := Journal(phase, keyID)));
      if fault.At(3) then (renamed, fault.Halt()) else (Sync(renamed), Done)
  }

  // ---- The keyring file is an atomic register ----

  datatype RegisterEvent = Write(doc: Document, fault: Fault) | Cut(loss: Loss) | Flush(pending: Loss)

  function RegisterStep(disk: Disk, event: RegisterEvent): Disk {
    match event
    case Write(doc, fault) => WriteKeyring(disk, doc, fault).0
    case Cut(loss) => PowerLoss(disk, loss)
    case Flush(pending) => WriteOut(disk, pending)
  }

  function RunRegister(disk: Disk, events: seq<RegisterEvent>): Disk
    decreases |events|
  {
    if events == [] then disk
    else RegisterStep(RunRegister(disk, events[..|events| - 1]), events[|events| - 1])
  }

  /** Whether a write with this fault gets as far as renaming its document over a readable or
      missing current file. Without a current file there is nothing to preserve in steps 3-5. */
  predicate Installs(disk: Disk, fault: Fault) {
    fault.NoFault? || fault.step == 0 || fault.step >= 7 || (disk.now.current.NoKeyring? && 3 <= fault.step <= 5)
  }

  /** The value history an abstract register would have: a write appends or does nothing, and a
      power loss may withdraw the newest value while it is not yet durable. */
  function RegisterLog(disk: Disk, log: seq<Document>, events: seq<RegisterEvent>): seq<Document>
    decreases |events|
  {
    if events == [] then log
    else
      var prefix, event := events[..|events| - 1], events[|events| - 1];
      LogStep(RunRegister(disk, prefix), RegisterLog(disk, log, prefix), event)
  }

  function LogStep(before: Disk, log: seq<Document>, event: RegisterEvent): seq<Document> {
    match event
    case Write(doc, fault) => if Installs(before, fault) then log + [doc] else log
    case Cut(loss) => Withdrawn(before, log, loss)
    case Flush(_) => log
  }

  /** The register shows the newest log value, and keyring.previous repeats it or its direct predecessor. */
  predicate Shows(entries: Entries, log: seq<Document>) {
    if log == [] then entries.current.NoKeyring? && entries.previous.NoKeyring?
    else
      && entries.current == Keyring(log[|log| - 1])
      && (entries.previous in {NoKeyring, Keyring(log[|log| - 1]), Predecessor(log)})
  }

  function Predecessor(log: seq<Document>): KeyringContent {
    if |log| < 2 then NoKeyring else Keyring(log[|log| - 2])
  }

  /** Either current is durable, or exactly its newest value is not and the directory still
      durably holds the predecessor in both files. */
  predicate RegisterValid(disk: Disk, log: seq<Document>) {
    && Shows(disk.now, log)
    && (if disk.now.current == disk.stable.current then Shows(disk.stable, log)
        else log != [] && disk.stable.current == Predecessor(log) && disk.stable.previous == Predecessor(log)
             && disk.now.previous in {Predecessor(log), Keyring(log[|log| - 1])})
  }

  /** A file system that keeps directory operations in order does not lose the rename of current
      and keep the later copy of that same value into keyring.previous. */
  predicate InOrder(disk: Disk, loss: Loss) {
    loss.current && disk.now.current != disk.stable.current ==>
      loss.previous || disk.now.previous == disk.stable.previous
  }

  function Withdrawn(disk: Disk, log: seq<Document>, loss: Loss): seq<Document> {
    if loss.current && disk.now.current != disk.stable.current && log != [] then log[..|log| - 1] else log
  }

  lemma WriteKeepsRegister(disk: Disk, log: seq<Document>, doc: Document, fault: Fault)
    requires RegisterValid(disk, log)
    ensures var (after, outcome) := WriteKeyring(disk, doc, fault);
            && RegisterValid(after, if Installs(disk, fault) then log + [doc] else log)
            && (outcome.Done? ==> after.now == after.stable && ReadKeyring(after.now) == Found(doc))
  {
  }

  predicate NewestIsNew(log: seq<Document>) {
    forall i :: 0 <= i < |log| - 1 ==> log[i] != log[|log| - 1]
  }

  /** For a newest value that does not repeat an older one (the history in a document grows with
      every change), exactly the in-order losses keep keyring.previous at the current value or
      its predecessor. */
  lemma LossKeepsRegisterExactly(disk: Disk, log: seq<Document>, loss: Loss)
    requires RegisterValid(disk, log)
    ensures InOrder(disk, loss) ==> RegisterValid(PowerLoss(disk, loss), Withdrawn(disk, log, loss))
    ensures NewestIsNew(log) && !InOrder(disk, loss) ==>
              !RegisterValid(PowerLoss(disk, loss), Withdrawn(disk, log, loss))
  {
  }

  /** Neither a power loss nor writing out reorders the renames of current and keyring.previous. */
  predicate OrderedEvent(disk: Disk, event: RegisterEvent) {
    match event
    case Write(_, _) => true
    case Cut(loss) => InOrder(disk, loss)
    case Flush(pending) => InOrder(disk, pending)
  }

  predicate ValidRegisterRun(disk: Disk, events: seq<RegisterEvent>)
    decreases |events|
  {
    events == [] ||
    (var prefix, event := events[..|events| - 1], events[|events| - 1];
     ValidRegisterRun(disk, prefix) && OrderedEvent(RunRegister(disk, prefix), event))
  }

  lemma RegisterStepKeepsRegister(before: Disk, log: seq<Document>, event: RegisterEvent)
    requires RegisterValid(before, log)
    requires OrderedEvent(before, event)
    ensures RegisterValid(RegisterStep(before, event), LogStep(before, log, event))
  {
  }

  /** From any register state, over every run of writes that fail or die at any step, of in-order
      power losses and of renames written out in between, a read answers with the newest value of the
      abstract register, and keyring.previous, once there, parses as that value or its direct
      predecessor. */
  lemma {:induction false} KeyringIsAtomicRegister(disk: Disk, log: seq<Document>, events: seq<RegisterEvent>)
    requires RegisterValid(disk, log) && ValidRegisterRun(disk, events)
    ensures var told := RegisterLog(disk, log, events);
            && RegisterValid(RunRegister(disk, events), told)
            && ReadKeyring(RunRegister(disk, events).now)
               == if told == [] then NotInitialized else Found(told[|told| - 1])
    decreases |events|
  {
    if events != [] {
      var prefix, event := events[..|events| - 1], events[|events| - 1];
      KeyringIsAtomicRegister(disk, log, prefix);
      RegisterStepKeepsRegister(RunRegister(disk, prefix), RegisterLog(disk, log, prefix), event);
    }
  }

  /** A single write, stopped anywhere, leaves what was read before or the new document and nothing
      else, also after a power loss on top of it, and also when it is the first write of all. */
  lemma WriteIsAllOrNothing(disk: Disk, doc: Document, fault: Fault, loss: Loss)
    requires disk.now == disk.stable
    ensures var (after, outcome) := WriteKeyring(disk, doc, fault);
            && ReadKeyring(after.now) in {ReadKeyring(disk.now), Found(doc)}
            && ReadKeyring(PowerLoss(after, loss).now) in {ReadKeyring(disk.now), Found(doc)}
            && (outcome.Done? ==> ReadKeyring(PowerLoss(after, loss).now) == Found(doc))
            && after.now.credentials == disk.now.credentials && after.now.journal == disk.now.journal
  {
  }

  /** A current file that does not parse is never replaced: every write is refused, and reads
      keep answering from keyring.previous. */
  lemma CorruptCurrentIsKept(disk: Disk, doc: Document, fault: Fault)
    requires disk.now.current.CorruptKeyring?
    ensures var (after, outcome) := WriteKeyring(disk, doc, fault);
            after == disk && !outcome.Done?
  {
  }
}
