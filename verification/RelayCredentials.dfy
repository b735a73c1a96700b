/** Relay keys: which are accepted, rotation with a grace window, and what a restart restores. */
module RelayCredentials {
  import opened Secrets

  const GRACE_SECONDS := 600

  datatype Held = Nobody | Held(digest: Digest)
  datatype Cipher = NoCipher | Under(master: string)

  /** The service's snapshot: digests only, and the sealed copy of the active key. */
  datatype Memory = Memory(active: Held, activeEnc: StoredRelay, grace: Grace, also: set<Digest>)

  const CLEARED := Memory(Nobody, NoRelay, NoGrace, {})

  function Expire(m: Memory, now: int): Memory {
    if m.grace.Grace? && !(now < m.grace.deadline) then m.(grace := NoGrace) else m
  }

  predicate Accepts(m: Memory, key: string, now: int) {
    var live := Expire(m, now);
    && key != ""
    && (|| live.active == Held(Digest(key))
        || (live.grace.Grace? && live.grace.digest == Digest(key))
        || Digest(key) in live.also)
  }

  // ---- Installing keys ----

  /** The first non-empty key and the digests of the others. */
  function Primary(keys: seq<string>): string {
    if keys == [] then "" else if keys[0] != "" then keys[0] else Primary(keys[1..])
  }

  function Extras(keys: seq<string>): set<Digest> {
    if keys == [] then {}
    else if keys[0] == "" then Extras(keys[1..])
    else set k | k in keys[1..] && k != "" :: Digest(k)
  }

  /** `encrypts` says whether sealing works. */
  function Install(keys: seq<string>, cipher: Cipher, encrypts: bool): (Memory, bool) {
    if Primary(keys) == "" then (CLEARED, true)
    else
      var plain := Memory(Held(Digest(Primary(keys))), NoRelay, NoGrace, Extras(keys));
      if cipher.NoCipher? then (plain, true)
      else if !encrypts then (CLEARED, false)
      else (plain.(activeEnc := Envelope(cipher.master, Primary(keys))), true)
  }

  // ---- The credentials file ----

  datatype Read = ReadFailed(outcome: Outcome) | Absent | Present(doc: Persisted)

  /** Step 0 of a replacement is reading the file. */
  function ReadCredentials(disk: Disk, fault: Fault): Read {
    if fault.At(0) then ReadFailed(fault.Halt())
    else match disk.now.credentials
      case NoCredentials => Absent
      case CorruptCredentials => ReadFailed(Failed)
      case Credentials(doc) => Present(doc)
  }

  const NEW_DOCUMENT := Persisted(1, NoHash, NoRelay, NoGrace, "")

  function ReplaceRelayRotation(disk: Disk, sealed: StoredRelay, grace: Grace, fault: Fault): (Disk, Outcome) {
    var read := ReadCredentials(disk, fault);
    if read.ReadFailed? then (disk, read.outcome)
    else
      var doc := if read.Present? then read.doc else NEW_DOCUMENT;
      var version := if doc.formatVersion == 0 then 1 else doc.formatVersion;
      WriteCredentials(disk, doc.(formatVersion := version, relayKey := sealed, grace := grace), fault)
  }

  function ClearGrace(disk: Disk, fault: Fault): (Disk, Outcome) {
    var read := ReadCredentials(disk, fault);
    if read.ReadFailed? then (disk, read.outcome)
    else if read.Absent? || read.doc.grace.NoGrace? then (disk, Done)
    else WriteCredentials(disk, read.doc.(grace := NoGrace), fault)
  }

  // ---- Rotation and revocation ----

  /** `persists` is whether a data directory is configured. */
  datatype Setup = Setup(persists: bool, cipher: Cipher)
  datatype RotateFaults = RotateFaults(random: bool, encrypts: bool, file: Fault)

  function NextGrace(m: Memory, now: int): Grace {
    if m.active.Nobody? then NoGrace else Grace(m.active.digest, now + GRACE_SECONDS)
  }

  function Flipped(m: Memory, newKey: string, sealed: StoredRelay, now: int): Memory {
    Memory(Held(Digest(newKey)), sealed, NextGrace(m, now),
           if m.active.Nobody? then m.also else m.also - {m.active.digest})
  }

  function Rotate(disk: Disk, m: Memory, setup: Setup, newKey: string, now: int, f: RotateFaults)
    : (Disk, Memory, Outcome)
  {
    if !f.random || (setup.cipher.Under? && !f.encrypts) then (disk, m, Failed)
    else
      var sealed := if setup.cipher.Under? then Envelope(setup.cipher.master, newKey) else NoRelay;
      if !setup.persists then (disk, Flipped(m, newKey, sealed, now), Done)
      else if sealed.NoRelay? then (disk, m, Failed)
      else
        var (after, outcome) := ReplaceRelayRotation(disk, sealed, NextGrace(m, now), f.file);
        (after, if outcome.Done? then Flipped(m, newKey, sealed, now) else m, outcome)
  }

  function Revoke(disk: Disk, m: Memory, setup: Setup, fault: Fault): (Disk, Memory, Outcome) {
    if !setup.persists then (disk, m.(grace := NoGrace), Done)
    else
      var (after, outcome) := ClearGrace(disk, fault);
      (after, if outcome.Done? then m.(grace := NoGrace) else m, outcome)
  }

  // ---- Runs of one process ----

  datatype Event = DoRotate(newKey: string, at: int, f: RotateFaults) | DoRevoke(at: int, fault: Fault) | Look(at: int)

  datatype Node = Node(disk: Disk, m: Memory)

  function Act(n: Node, setup: Setup, event: Event): (Node, Outcome) {
    match event
    case DoRotate(newKey, at, f) =>
      var (disk, m, outcome) := Rotate(n.disk, n.m, setup, newKey, at, f);
      (Node(disk, m), outcome)
    case DoRevoke(_, fault) =>
      var (disk, m, outcome) := Revoke(n.disk, n.m, setup, fault);
      (Node(disk, m), outcome)
    case Look(at) => (Node(n.disk, Expire(n.m, at)), Done)
  }

  function Run(n: Node, setup: Setup, events: seq<Event>): Node
    decreases |events|
  {
    if events == [] then n else Act(Run(n, setup, events[..|events| - 1]), setup, events[|events| - 1]).0
  }

  /** What the operator was told: the rotations and revocations that succeeded. */
  datatype Entry = Rotated(newKey: string, at: int) | Revoked

  function Log(n: Node, setup: Setup, events: seq<Event>): seq<Entry>
    decreases |events|
  {
    if events == [] then []
    else
      var prefix, event := events[..|events| - 1], events[|events| - 1];
      var log := Log(n, setup, prefix);
      if event.Look? || !Act(Run(n, setup, prefix), setup, event).1.Done? then log
      else if event.DoRotate? then log + [Rotated(event.newKey, event.at)] else log + [Revoked]
  }

  /** Time does not run backwards, and the process survives: a death ends the run. */
  predicate Orderly(n: Node, setup: Setup, events: seq<Event>, from: int, now: int)
    decreases |events|
  {
    if events == [] then from <= now
    else
      var prefix, event := events[..|events| - 1], events[|events| - 1];
      && event.at <= now && Orderly(n, setup, prefix, from, event.at)
      && (event.DoRotate? ==> event.newKey != "")
      && !Act(Run(n, setup, prefix), setup, event).1.Crashed?
  }

  // ---- The accepted keys, told from the log alone ----

  function Current(start: Memory, log: seq<Entry>): Held
    decreases |log|
  {
    if log == [] then start.active
    else if log[|log| - 1].Rotated? then Held(Digest(log[|log| - 1].newKey))
    else Current(start, log[..|log| - 1])
  }

  /** The key in force just before the last rotation, unless revoked since, until its deadline. */
  predicate Preceding(start: Memory, log: seq<Entry>, digest: Digest, now: int) {
    if log == [] then start.grace.Grace? && start.grace.digest == digest && now < start.grace.deadline
    else
      var last := log[|log| - 1];
      last.Rotated? && Current(start, log[..|log| - 1]) == Held(digest) && now < last.at + GRACE_SECONDS
  }

  /** An extra key lasts unless it was the active key of some rotation: then it is rotated out. */
  predicate Extra(start: Memory, log: seq<Entry>, digest: Digest) {
    digest in start.also &&
    forall i :: 0 <= i < |log| && log[i].Rotated? ==> Current(start, log[..i]) != Held(digest)
  }

  predicate Explains(start: Memory, log: seq<Entry>, m: Memory, now: int) {
    && m.active == Current(start, log)
    && (forall d :: d in m.also ==> Extra(start, log, d))
    && (forall d :: d in start.also && Extra(start, log, d) ==> d in m.also)
    && GraceExplained(start, log, m.grace, now)
  }

  /** The grace in memory is the one the log calls for, or was dropped after its deadline. */
  predicate GraceExplained(start: Memory, log: seq<Entry>, grace: Grace, now: int) {
    var due := GraceDue(start, log);
    grace == due || (grace.NoGrace? && due.Grace? && due.deadline <= now)
  }

  function GraceDue(start: Memory, log: seq<Entry>): Grace {
    if log == [] then start.grace
    else
      var last, before := log[|log| - 1], Current(start, log[..|log| - 1]);
      if last.Rotated? && before.Held? then Grace(before.digest, last.at + GRACE_SECONDS) else NoGrace
  }

  lemma ExtraGrows(start: Memory, log: seq<Entry>, entry: Entry, digest: Digest)
    ensures Extra(start, log + [entry], digest)
            <==> Extra(start, log, digest) && (entry.Rotated? ==> Current(start, log) != Held(digest))
  {
    var more := log + [entry];
    assert more[..|log|] == log && more[|log|] == entry;
    assert forall i :: 0 <= i < |log| ==> more[i] == log[i] && more[..i] == log[..i];
  }

  lemma ActExplained(start: Memory, log: seq<Entry>, n: Node, setup: Setup, event: Event, before: int)
    requires Explains(start, log, n.m, before) && before <= event.at
    ensures var (next, outcome) := Act(n, setup, event);
            var more := if event.Look? || !outcome.Done? then log
                        else if event.DoRotate? then log + [Rotated(event.newKey, event.at)] else log + [Revoked];
            Explains(start, more, next.m, event.at)
  {
    var (next, outcome) := Act(n, setup, event);
    if !event.Look? && outcome.Done? {
      var entry := if event.DoRotate? then Rotated(event.newKey, event.at) else Revoked;
      assert (log + [entry])[..|log|] == log;
      forall d: Digest
        ensures Extra(start, log + [entry], d)
                <==> Extra(start, log, d) && (entry.Rotated? ==> Current(start, log) != Held(d))
      {
        ExtraGrows(start, log, entry, d);
      }
    }
  }

  lemma {:induction false} RunExplained(start: Node, setup: Setup, events: seq<Event>, from: int, now: int)
    requires Orderly(start, setup, events, from, now)
    ensures Explains(start.m, Log(start, setup, events), Run(start, setup, events).m, now)
    decreases |events|
  {
    if events != [] {
      var prefix, event := events[..|events| - 1], events[|events| - 1];
      RunExplained(start, setup, prefix, from, event.at);
      ActExplained(start.m, Log(start, setup, prefix), Run(start, setup, prefix), setup, event, event.at);
    }
  }

  /** Over any run of rotations, revocations and requests, whatever fails: exactly the current key,
      the extra keys never rotated out, and the immediately preceding key until its deadline or
      revocation are accepted. */
  lemma AcceptedKeysAreExactly(start: Node, setup: Setup, events: seq<Event>, from: int, key: string, now: int)
    requires Orderly(start, setup, events, from, now)
    ensures var log := Log(start, setup, events);
            Accepts(Run(start, setup, events).m, key, now) <==>
            key != "" && (|| Current(start.m, log) == Held(Digest(key))
                          || Preceding(start.m, log, Digest(key), now)
                          || Extra(start.m, log, Digest(key)))
  {
    RunExplained(start, setup, events, from, now);
    AcceptsExplained(start.m, Log(start, setup, events), Run(start, setup, events).m, key, now);
  }

  /** What a memory accepts, told from the log that explains it. */
  lemma AcceptsExplained(start: Memory, log: seq<Entry>, m: Memory, key: string, now: int)
    requires Explains(start, log, m, now)
    ensures Accepts(m, key, now) <==>
            key != "" && (|| Current(start, log) == Held(Digest(key))
                          || Preceding(start, log, Digest(key), now)
                          || Extra(start, log, Digest(key)))
  {
  }

  // ---- Restart ----

  datatype Started = NotStarted | Started(m: Memory)

  /** The relay keys of a starting server: the environment's, or the one it opens from the file. */
  function Restart(entries: Entries, master: string, environment: seq<string>, now: int): Started {
    match entries.credentials
    case CorruptCredentials => NotStarted
    case NoCredentials =>
      if Primary(environment) == "" then NotStarted else Started(Install(environment, Under(master), true).0)
    case Credentials(doc) =>
      var keys := if Primary(environment) != "" then environment else [OpenedRelay(doc.relayKey, master)];
      if Primary(keys) == "" then NotStarted
      else Started(Install(keys, Under(master), true).0.(grace := Expire(CLEARED.(grace := doc.grace), now).grace))
  }

  function OpenedRelay(stored: StoredRelay, master: string): string {
    match stored
    case NoRelay => ""
    case PlainRelay(text) => text
    case Envelope(key, text) => if key == master then text else ""
  }

  /** The file holds the active key, and the grace window up to one that has run out. */
  predicate Persists(entries: Entries, m: Memory, master: string, now: int) {
    && entries.credentials.Credentials?
    && (var doc := entries.credentials.doc;
        && OpenedRelay(doc.relayKey, master) != "" && m.active == Held(Digest(OpenedRelay(doc.relayKey, master)))
        && (doc.grace == m.grace || (m.grace.NoGrace? && doc.grace.Grace? && doc.grace.deadline <= now)))
  }

  lemma RestartFromFile(entries: Entries, m: Memory, master: string, key: string, now: int, later: int)
    requires Persists(entries, m, master, now) && now <= later
    ensures var after := Restart(entries, master, [], now);
            after.Started? && (Accepts(after.m, key, later) <==> Accepts(m.(also := {}), key, later))
  {
  }

  /** The new file is renamed into place and then an error is reported. */
  predicate Splits(n: Node, event: Event) {
    match event
    case DoRotate(_, _, f) =>
      f.random && f.encrypts && f.file == Fail(3) && !n.disk.now.credentials.CorruptCredentials?
    case DoRevoke(_, fault) =>
      fault == Fail(3) && n.disk.now.credentials.Credentials? && n.disk.now.credentials.doc.grace.Grace?
    case Look(_) => false
  }

  predicate InStep(n: Node, master: string, now: int) {
    Persists(n.disk.now, n.m, master, now) && n.disk.now.credentials == n.disk.stable.credentials
  }

  /** A call that reports failure leaves everything as it was, unless it splits. */
  lemma ActStaysInStep(n: Node, master: string, event: Event, before: int)
    requires before <= event.at && (event.DoRotate? ==> event.newKey != "")
    ensures var (next, outcome) := Act(n, Setup(true, Under(master)), event);
            && (InStep(n, master, before) && !outcome.Crashed? && !Splits(n, event) ==> InStep(next, master, event.at))
            && (event.DoRotate? && outcome.Done? ==> InStep(next, master, event.at))
            && (outcome.Failed? && !Splits(n, event) ==> next == n)
            && (Splits(n, event) ==> outcome.Failed? && next.m == n.m)
  {
  }

  /** The key the log calls for, or the one before it inside its window. */
  predicate CurrentOrPreceding(start: Memory, log: seq<Entry>, key: string, now: int) {
    key != "" && (Current(start, log) == Held(Digest(key)) || Preceding(start, log, Digest(key), now))
  }

  predicate HasRotated(log: seq<Entry>) {
    exists i :: 0 <= i < |log| && log[i].Rotated?
  }

  /** Nothing split since the last successful rotation. */
  predicate Healed(n: Node, setup: Setup, events: seq<Event>)
    decreases |events|
  {
    events == [] ||
    (var prefix, event := events[..|events| - 1], events[|events| - 1];
     var before := Run(n, setup, prefix);
     || (event.DoRotate? && Act(before, setup, event).1.Done?)
     || (!Splits(before, event) && Healed(n, setup, prefix)))
  }

  lemma {:induction false} RunStaysInStep(n: Node, master: string, events: seq<Event>, from: int, now: int)
    requires Orderly(n, Setup(true, Under(master)), events, from, now) && Healed(n, Setup(true, Under(master)), events)
    ensures InStep(n, master, from) || HasRotated(Log(n, Setup(true, Under(master)), events)) ==>
              InStep(Run(n, Setup(true, Under(master)), events), master, now)
    decreases |events|
  {
    if events != [] {
      var prefix, event := events[..|events| - 1], events[|events| - 1];
      var before := Run(n, Setup(true, Under(master)), prefix);
      ActStaysInStep(before, master, event, event.at);
      if !(event.DoRotate? && Act(before, Setup(true, Under(master)), event).1.Done?) {
        RunStaysInStep(n, master, prefix, from, event.at);
      }
    }
  }

  /** A restart from the file, even after losing power, accepts what the log calls for apart from the
      extra keys, which only the environment supplies: the current key and the preceding one until
      its deadline. A split write is outgrown by the next successful rotation, and a deployment that
      began without a file is covered from its first rotation on. */
  lemma RestartAcceptsTheSame(n: Node, master: string, events: seq<Event>, from: int, now: int, loss: Loss,
                              key: string, later: int)
    requires Orderly(n, Setup(true, Under(master)), events, from, now) && now <= later
    requires Healed(n, Setup(true, Under(master)), events)
    requires InStep(n, master, from) || HasRotated(Log(n, Setup(true, Under(master)), events))
    ensures var end, log := Run(n, Setup(true, Under(master)), events), Log(n, Setup(true, Under(master)), events);
            var after := Restart(PowerLoss(end.disk, loss).now, master, [], now);
            after.Started? && (Accepts(after.m, key, later) <==> CurrentOrPreceding(n.m, log, key, later))
  {
    var end := Run(n, Setup(true, Under(master)), events);
    RunStaysInStep(n, master, events, from, now);
    assert PowerLoss(end.disk, loss).now.credentials == end.disk.now.credentials;
    RestartFromFile(PowerLoss(end.disk, loss).now, end.m, master, key, now, later);
    RunExplained(n, Setup(true, Under(master)), events, from, now);
  }

  /** Death in the middle of a rotation: once the file is renamed the restart is in the after-state,
      before that (or if power loss takes the rename back) in the before-state. */
  lemma CrashIsBeforeOrAfter(n: Node, master: string, newKey: string, now: int, f: RotateFaults, loss: Loss,
                             key: string)
    requires InStep(n, master, now) && newKey != "" && f.random && f.encrypts && f.file.Crash? && f.file.step <= 3
    ensures var (disk, m, outcome) := Rotate(n.disk, n.m, Setup(true, Under(master)), newKey, now, f);
            var after := Restart(PowerLoss(disk, loss).now, master, [], now);
            var state := if f.file.step == 3 && !loss.credentials
                         then Flipped(n.m, newKey, Envelope(master, newKey), now) else n.m;
            && outcome.Crashed? && after.Started?
            && (Accepts(after.m, key, now) <==> Accepts(state.(also := {}), key, now))
  {
  }

  /** A rotation that reports failure keeps the restart in agreement exactly when it did not fail in
      the directory sync after the rename: there the restart moves to a key nobody was shown. */
  lemma FailedRotationAgreesIff(n: Node, master: string, newKey: string, now: int, f: RotateFaults)
    requires InStep(n, master, now) && newKey != "" && !Accepts(n.m.(also := {}), newKey, now)
    requires Rotate(n.disk, n.m, Setup(true, Under(master)), newKey, now, f).2.Failed?
    ensures var (disk, m, _) := Rotate(n.disk, n.m, Setup(true, Under(master)), newKey, now, f);
            var after := Restart(disk.now, master, [], now);
            && m == n.m && after.Started?
            && ((forall key :: Accepts(after.m, key, now) <==> Accepts(m.(also := {}), key, now))
                <==> !(f.random && f.encrypts && f.file == Fail(3)))
  {
  }

  /** Death in the middle of a revocation, in the same way. */
  lemma RevocationCrashIsBeforeOrAfter(n: Node, master: string, now: int, fault: Fault, loss: Loss, key: string)
    requires InStep(n, master, now) && Revoke(n.disk, n.m, Setup(true, Under(master)), fault).2.Crashed?
    ensures var (disk, m, _) := Revoke(n.disk, n.m, Setup(true, Under(master)), fault);
            var after := Restart(PowerLoss(disk, loss).now, master, [], now);
            var state := if fault.step == 3 && !loss.credentials then n.m.(grace := NoGrace) else n.m;
            after.Started? && (Accepts(after.m, key, now) <==> Accepts(state.(also := {}), key, now))
  {
  }

  function FaultOf(event: Event): Fault {
    match event
    case DoRotate(_, _, f) => f.file
    case DoRevoke(_, fault) => fault
    case Look(_) => NoFault
  }

  function EntryOf(event: Event): Entry {
    if event.DoRotate? then Rotated(event.newKey, event.at) else Revoked
  }

  /** The memory the interrupted call was about to have. */
  function Undisturbed(n: Node, master: string, event: Event): Memory {
    match event
    case DoRotate(newKey, at, _) => Flipped(n.m, newKey, Envelope(master, newKey), at)
    case DoRevoke(_, _) => n.m.(grace := NoGrace)
    case Look(_) => n.m
  }

  lemma UndisturbedExplained(start: Memory, log: seq<Entry>, n: Node, master: string, event: Event)
    requires Explains(start, log, n.m, event.at) && !event.Look?
    ensures Explains(start, log + [EntryOf(event)], Undisturbed(n, master, event), event.at)
  {
    var smooth := match event
                  case DoRotate(newKey, at, _) => DoRotate(newKey, at, RotateFaults(true, true, NoFault))
                  case DoRevoke(at, _) => DoRevoke(at, NoFault)
                  case Look(_) => event;
    ActExplained(start, log, n, Setup(false, Under(master)), smooth, event.at);
  }

  /** What a memory accepts beside its extra keys, told from the log that explains it. */
  lemma AcceptsFromLog(start: Memory, log: seq<Entry>, m: Memory, key: string, now: int)
    requires Explains(start, log, m, now)
    ensures Accepts(m.(also := {}), key, now) <==>
              CurrentOrPreceding(start, log, key, now)
  {
  }

  lemma DeathRestarts(start: Memory, log: seq<Entry>, n: Node, master: string, event: Event, loss: Loss, key: string)
    requires InStep(n, master, event.at) && Explains(start, log, n.m, event.at)
    requires event.DoRotate? ==> event.newKey != ""
    requires Act(n, Setup(true, Under(master)), event).1.Crashed?
    ensures var dead := Act(n, Setup(true, Under(master)), event).0;
            var after := Restart(PowerLoss(dead.disk, loss).now, master, [], event.at);
            var told := if FaultOf(event).step == 3 && !loss.credentials then log + [EntryOf(event)] else log;
            after.Started? && (Accepts(after.m, key, event.at) <==> CurrentOrPreceding(start, told, key, event.at))
  {
    AcceptsFromLog(start, log, n.m, key, event.at);
    UndisturbedExplained(start, log, n, master, event);
    AcceptsFromLog(start, log + [EntryOf(event)], Undisturbed(n, master, event), key, event.at);
    if event.DoRotate? {
      CrashIsBeforeOrAfter(n, master, event.newKey, event.at, event.f, loss, key);
    } else {
      RevocationCrashIsBeforeOrAfter(n, master, event.at, event.fault, loss, key);
    }
  }

  /** So a run that ends with death inside a call restarts as its log says, with the interrupted call
      counted exactly when its file was renamed and power loss did not take that back. */
  lemma DeathIsBeforeOrAfter(n: Node, master: string, events: seq<Event>, event: Event, from: int, loss: Loss,
                             key: string)
    requires Orderly(n, Setup(true, Under(master)), events, from, event.at)
    requires Healed(n, Setup(true, Under(master)), events)
    requires InStep(n, master, from) || HasRotated(Log(n, Setup(true, Under(master)), events))
    requires event.DoRotate? ==> event.newKey != ""
    requires Act(Run(n, Setup(true, Under(master)), events), Setup(true, Under(master)), event).1.Crashed?
    ensures var end, log := Run(n, Setup(true, Under(master)), events), Log(n, Setup(true, Under(master)), events);
            var dead := Act(end, Setup(true, Under(master)), event).0;
            var after := Restart(PowerLoss(dead.disk, loss).now, master, [], event.at);
            var told := if FaultOf(event).step == 3 && !loss.credentials then log + [EntryOf(event)] else log;
            after.Started? && (Accepts(after.m, key, event.at) <==> CurrentOrPreceding(n.m, told, key, event.at))
  {
    var setup := Setup(true, Under(master));
    RunStaysInStep(n, master, events, from, event.at);
    RunExplained(n, setup, events, from, event.at);
    DeathRestarts(n.m, Log(n, setup, events), Run(n, setup, events), master, event, loss, key);
  }

  /** The key the window still accepts beside the active one. */
  predicate WindowMatters(m: Memory, now: int) {
    var grace := Expire(m, now).grace;
    grace.Grace? && grace.digest.text != "" && m.active != Held(grace.digest)
  }

  /** A revocation that reports failure keeps the restart in agreement exactly when it did not fail in
      the directory sync over a window that still matters: there the process goes on accepting the
      old key, and the restart rejects it. */
  lemma FailedRevocationAgreesIff(n: Node, master: string, now: int, fault: Fault)
    requires InStep(n, master, now) && Revoke(n.disk, n.m, Setup(true, Under(master)), fault).2.Failed?
    ensures var (disk, m, _) := Revoke(n.disk, n.m, Setup(true, Under(master)), fault);
            var after := Restart(disk.now, master, [], now);
            && m == n.m && after.Started?
            && ((forall key :: Accepts(after.m, key, now) <==> Accepts(m.(also := {}), key, now))
                <==> !(fault == Fail(3) && WindowMatters(n.m, now)))
  {
    var (disk, m, _) := Revoke(n.disk, n.m, Setup(true, Under(master)), fault);
    var after := Restart(disk.now, master, [], now);
    if fault == Fail(3) && WindowMatters(n.m, now) {
      var key := n.m.grace.digest.text;
      assert Accepts(m.(also := {}), key, now) && !Accepts(after.m, key, now);
    }
  }

  // ---- A password reset writes the whole file too ----

  /** What it reads of a file that is not corrupt: a missing one counts as an empty document. */
  function ReadForReset(entries: Entries): Persisted
    requires !entries.credentials.CorruptCredentials?
  {
    if entries.credentials.Credentials? then entries.credentials.doc else NEW_DOCUMENT
  }

  /** It writes back what it read with the new hash, and takes no lock in between. */
  function ResetAdmin(disk: Disk, read: Persisted, hash: AdminHash, fault: Fault): (Disk, Outcome) {
    var version := if read.formatVersion == 0 then 1 else read.formatVersion;
    WriteCredentials(disk, read.(formatVersion := version, adminHash := hash), fault)
  }

  /** Whatever rotations and revocations happen while a password reset holds what it read: once it is
      written, a restart accepts the keys of the moment it was read, and no others. */
  lemma ResetTakesKeysBack(n: Node, setup: Setup, master: string, events: seq<Event>, from: int, now: int,
                           hash: AdminHash, fault: Fault, key: string)
    requires InStep(n, master, from) && from <= now
    requires ResetAdmin(Run(n, setup, events).disk, ReadForReset(n.disk.now), hash, fault).1.Done?
    ensures var disk := ResetAdmin(Run(n, setup, events).disk, ReadForReset(n.disk.now), hash, fault).0;
            var after := Restart(disk.now, master, [], now);
            after.Started? && (Accepts(after.m, key, now) <==> Accepts(n.m.(also := {}), key, now))
  {
    var disk := ResetAdmin(Run(n, setup, events).disk, ReadForReset(n.disk.now), hash, fault).0;
    RestartFromFile(disk.now, n.m, master, key, now, now);
  }

  /** So a relay key rotated to in between is accepted until the restart and rejected after it. */
  lemma ResetUndoesRotation(n: Node, master: string, events: seq<Event>, from: int, now: int,
                            hash: AdminHash, fault: Fault, key: string)
    requires InStep(n, master, from) && Orderly(n, Setup(true, Under(master)), events, from, now) && from <= now
    requires key != "" && !Accepts(n.m.(also := {}), key, now)
    requires Current(n.m, Log(n, Setup(true, Under(master)), events)) == Held(Digest(key))
    requires var end := Run(n, Setup(true, Under(master)), events);
             ResetAdmin(end.disk, ReadForReset(n.disk.now), hash, fault).1.Done?
    ensures var end := Run(n, Setup(true, Under(master)), events);
            var disk := ResetAdmin(end.disk, ReadForReset(n.disk.now), hash, fault).0;
            var after := Restart(disk.now, master, [], now);
            Accepts(end.m, key, now) && after.Started? && !Accepts(after.m, key, now)
  {
    AcceptedKeysAreExactly(n, Setup(true, Under(master)), events, from, key, now);
    ResetTakesKeysBack(n, Setup(true, Under(master)), master, events, from, now, hash, fault, key);
  }

  lemma {:induction false} CurrentOfRotations(start: Memory, log: seq<Entry>)
    ensures !HasRotated(log) ==> Current(start, log) == start.active
    ensures HasRotated(log) ==>
              exists i :: 0 <= i < |log| && log[i].Rotated? && Current(start, log) == Held(Digest(log[i].newKey))
    decreases |log|
  {
    if log != [] && !log[|log| - 1].Rotated? {
      var prefix := log[..|log| - 1];
      CurrentOfRotations(start, prefix);
      assert forall i :: 0 <= i < |prefix| ==> prefix[i] == log[i];
      if HasRotated(prefix) {
        var i :| 0 <= i < |prefix| && prefix[i].Rotated? && Current(start, prefix) == Held(Digest(prefix[i].newKey));
        assert log[i].Rotated? && Current(start, log) == Held(Digest(log[i].newKey));
      }
    }
  }

  predicate RealKeys(log: seq<Entry>) {
    forall i :: 0 <= i < |log| && log[i].Rotated? ==> log[i].newKey != ""
  }

  /** No rotation of the log moved to a key that was accepted before. */
  predicate NewKeys(start: Memory, log: seq<Entry>, now: int) {
    forall i :: 0 <= i < |log| && log[i].Rotated? ==> !Accepts(start.(also := {}), log[i].newKey, now)
  }

  lemma {:induction false} LoggedKeysAreKeys(n: Node, setup: Setup, events: seq<Event>, from: int, now: int)
    requires Orderly(n, setup, events, from, now)
    ensures RealKeys(Log(n, setup, events))
    decreases |events|
  {
    if events != [] {
      LoggedKeysAreKeys(n, setup, events[..|events| - 1], from, events[|events| - 1].at);
    }
  }

  /** With new keys that were not accepted before, a reset leaves memory and restart in agreement exactly
      when no rotation passed it, and no revocation of a window that still matters. */
  lemma ResetAgreesIff(n: Node, master: string, events: seq<Event>, from: int, now: int, hash: AdminHash, fault: Fault)
    requires InStep(n, master, from) && Orderly(n, Setup(true, Under(master)), events, from, now) && from <= now
    requires var end := Run(n, Setup(true, Under(master)), events);
             ResetAdmin(end.disk, ReadForReset(n.disk.now), hash, fault).1.Done?
    requires NewKeys(n.m, Log(n, Setup(true, Under(master)), events), now)
    ensures var end, log := Run(n, Setup(true, Under(master)), events), Log(n, Setup(true, Under(master)), events);
            var disk := ResetAdmin(end.disk, ReadForReset(n.disk.now), hash, fault).0;
            var after := Restart(disk.now, master, [], now);
            && after.Started?
            && ((forall key :: Accepts(after.m, key, now) <==> Accepts(end.m.(also := {}), key, now))
                <==> !HasRotated(log) && (log == [] || !WindowMatters(n.m, now)))
  {
    var setup := Setup(true, Under(master));
    var end, log := Run(n, setup, events), Log(n, setup, events);
    var disk := ResetAdmin(end.disk, ReadForReset(n.disk.now), hash, fault).0;
    var after := Restart(disk.now, master, [], now);
    RunExplained(n, setup, events, from, now);
    LoggedKeysAreKeys(n, setup, events, from, now);
    forall key ensures after.Started? && (Accepts(after.m, key, now) <==> Accepts(n.m.(also := {}), key, now)) {
      ResetTakesKeysBack(n, setup, master, events, from, now, hash, fault, key);
    }
    AgreeIffUnchanged(n.m, log, end.m, now);
  }

  lemma AgreeIffUnchanged(start: Memory, log: seq<Entry>, m: Memory, now: int)
    requires Explains(start, log, m, now)
    requires RealKeys(log) && NewKeys(start, log, now)
    ensures (forall key :: Accepts(start.(also := {}), key, now) <==> Accepts(m.(also := {}), key, now))
            <==> !HasRotated(log) && (log == [] || !WindowMatters(start, now))
  {
    CurrentOfRotations(start, log);
    if HasRotated(log) {
      var i :| 0 <= i < |log| && log[i].Rotated? && Current(start, log) == Held(Digest(log[i].newKey));
      assert Accepts(m.(also := {}), log[i].newKey, now);
    } else if log != [] {
      assert m.grace.NoGrace? && m.active == start.active;
      if WindowMatters(start, now) {
        var key := start.grace.digest.text;
        assert Accepts(start.(also := {}), key, now) && !Accepts(m.(also := {}), key, now);
      }
    }
  }

  // ---- Environment keys ----

  lemma {:induction false} InstalledKeys(keys: seq<string>, key: string)
    requires key != ""
    ensures key in keys <==> Primary(keys) == key || Digest(key) in Extras(keys)
  {
    if keys != [] {
      assert key in keys <==> key == keys[0] || key in keys[1..];
      if keys[0] == "" {
        InstalledKeys(keys[1..], key);
      }
    }
  }

  /** Keys in the environment win over the file: after a restart a rotated key is accepted only if
      the environment lists it too, while the grace window in the file still applies. */
  lemma EnvironmentHidesRotation(n: Node, master: string, environment: seq<string>, key: string, now: int)
    requires InStep(n, master, now) && Primary(environment) != "" && key != ""
    ensures var after, grace := Restart(n.disk.now, master, environment, now), Expire(n.m, now).grace;
            && after.Started?
            && (Accepts(after.m, key, now) <==> key in environment || (grace.Grace? && grace.digest == Digest(key)))
  {
  }
}
