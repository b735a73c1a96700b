/** First start: a journal of phases makes the generation and one-time display of the three secrets resumable. */
module Bootstrap {
  import opened Secrets
  import opened KeyringFile
  import Rotation = MasterRotation
  import Safety = MasterRotationSafety

  /** What the operator is shown, and what the random source supplied for one attempt. */
  datatype Triple = Triple(admin: string, relay: string, master: string, keyID: string)
  datatype Drawn = Drawn(admin: string, relay: string, master: string)

  /** Write errors on the output are ignored by the program, so a garbled print goes unnoticed. */
  datatype Printing = Delivered | Garbled | Died(complete: bool)
  datatype Printout = Nothing | Full(t: Triple) | Partial(t: Triple)

  datatype RunFaults = RunFaults(
    readable: bool, prepared: Fault, random: bool, initialize: Fault, loads: bool, crypto: bool,
    credentials: Fault, persisted: Fault, printing: Printing, displayed: Fault)

  datatype Answer = Shown(t: Triple) | AlreadyShown | Rejected | Dead
  datatype Ran = Ran(disk: Disk, printout: Printout, answer: Answer)

  /** Key ids are a digest of the key: an injective stand-in. */
  function KeyIDOf(master: string): string {
    "digest of " + master
  }

  function Halted(disk: Disk, printout: Printout, outcome: Outcome): Ran {
    Ran(disk, printout, if outcome.Crashed? then Dead else Rejected)
  }

  function Display(disk: Disk, t: Triple, f: RunFaults): Ran {
    match f.printing
    case Died(complete) => Ran(disk, if complete then Full(t) else Partial(t), Dead)
    case _ =>
      var printout := if f.printing.Delivered? then Full(t) else Partial(t);
      var (after, outcome) := WriteJournal(disk, Displayed, t.keyID, f.displayed);
      if outcome.Done? then Ran(after, printout, Shown(t)) else Halted(after, printout, outcome)
  }

  function CredentialsFor(t: Triple): Persisted {
    Persisted(1, Argon2(t.admin), Envelope(t.master, t.relay), NoGrace, t.keyID)
  }

  /** Credentials first, then the journal says so, then the display. */
  function Persist(disk: Disk, t: Triple, f: RunFaults): Ran {
    if !f.crypto then Ran(disk, Nothing, Rejected)
    else
      var (written, outcome) := WriteCredentials(disk, CredentialsFor(t), f.credentials);
      if !outcome.Done? then Halted(written, Nothing, outcome)
      else
        var (noted, noteOutcome) := WriteJournal(written, CredentialsPersisted, t.keyID, f.persisted);
        if !noteOutcome.Done? then Halted(noted, Nothing, noteOutcome) else Display(noted, t, f)
  }

  /** An existing keyring supplies the master, if it can be loaded. */
  function TripleFrom(drawn: Drawn, loaded: Loaded): Triple {
    match loaded
    case Loaded(keyID, master) => Triple(drawn.admin, drawn.relay, master, keyID)
    case NotLoaded => Triple(drawn.admin, drawn.relay, drawn.master, KeyIDOf(drawn.master))
  }

  function FreshInstall(disk: Disk, drawn: Drawn, f: RunFaults): Ran {
    var (noted, outcome) := WriteJournal(disk, BootPrepared, "", f.prepared);
    if !outcome.Done? then Halted(noted, Nothing, outcome)
    else if !f.random then Ran(noted, Nothing, Rejected)
    else
      var (keyed, keyOutcome) := Initialize(noted, KeyIDOf(drawn.master), drawn.master, f.initialize);
      if !keyOutcome.Done? then Halted(keyed, Nothing, keyOutcome)
      else Persist(keyed, TripleFrom(drawn, if f.loads then LoadActive(keyed.now) else NotLoaded), f)
  }

  function ResumeUndelivered(disk: Disk, drawn: Drawn, f: RunFaults): Ran {
    var loaded := if f.loads then LoadActive(disk.now) else NotLoaded;
    if loaded.NotLoaded? || !f.random then Ran(disk, Nothing, Rejected)
    else Persist(disk, TripleFrom(drawn, loaded), f)
  }

  function RunOnce(disk: Disk, drawn: Drawn, f: RunFaults): Ran {
    if !f.readable then Ran(disk, Nothing, Rejected)
    else match disk.now.journal
      case CorruptJournal => Ran(disk, Nothing, Rejected)
      case NoJournal => FreshInstall(disk, drawn, f)
      case Journal(phase, _) =>
        match phase
        case Displayed => Ran(disk, Nothing, AlreadyShown)
        case CredentialsPersisted => ResumeUndelivered(disk, drawn, f)
        case BootPrepared => FreshInstall(disk, drawn, f)
        case UnknownBoot(name) => if name == "" then FreshInstall(disk, drawn, f) else Ran(disk, Nothing, Rejected)
  }

  // ---- Runs with deaths and power losses between ----

  datatype Event = Attempt(drawn: Drawn, f: RunFaults) | Outage(loss: Loss) | Flush(pending: Loss)
  datatype Site = Site(disk: Disk, out: seq<Printout>)

  function Step(s: Site, event: Event): Site {
    match event
    case Attempt(drawn, f) =>
      var ran := RunOnce(s.disk, drawn, f);
      Site(ran.disk, if ran.printout.Nothing? then s.out else s.out + [ran.printout])
    case Outage(loss) => s.(disk := PowerLoss(s.disk, loss))
    case Flush(pending) => s.(disk := WriteOut(s.disk, pending))
  }

  function Run(s: Site, events: seq<Event>): Site
    decreases |events|
  {
    if events == [] then s else Run(Step(s, events[0]), events[1..])
  }

  /** The files parse: an absent or usable keyring, and a journal of a known phase. */
  predicate Readable(e: Entries) {
    && (match e.current
        case NoKeyring => e.previous.NoKeyring?
        case Keyring(doc) => doc.active != "" && doc.keyID != ""
        case CorruptKeyring => false)
    && (e.journal.NoJournal? || (e.journal.Journal? && !e.journal.phase.UnknownBoot?))
  }

  predicate SaysPersisted(e: Entries) {
    e.journal.Journal? && (e.journal.phase.CredentialsPersisted? || e.journal.phase.Displayed?)
  }

  predicate SaysDisplayed(e: Entries) {
    e.journal.Journal? && e.journal.phase.Displayed?
  }

  /** A durable keyring is never changed; credentials are noted only over a durable keyring; a
      durable "displayed" is never taken back. */
  predicate Orderly(disk: Disk) {
    && Readable(disk.now) && Readable(disk.stable) && disk.now.previous == disk.stable.previous
    && (disk.stable.current.Keyring? ==> disk.now.current == disk.stable.current)
    && (SaysPersisted(disk.now) || SaysPersisted(disk.stable) ==> disk.stable.current.Keyring?)
    && (SaysDisplayed(disk.stable) ==> SaysDisplayed(disk.now))
  }

  predicate Supplied(event: Event) {
    event.Attempt? ==> event.drawn.master != ""
  }

  function FirstKeyring(drawn: Drawn): KeyringContent {
    Keyring(FirstDocument(KeyIDOf(drawn.master), drawn.master))
  }

  lemma JournalKeepsOrderly(disk: Disk, phase: BootPhase, keyID: string, fault: Fault)
    requires Orderly(disk) && !phase.UnknownBoot? && !SaysDisplayed(disk.now)
    requires phase.BootPrepared? || disk.stable.current.Keyring?
    ensures var (after, outcome) := WriteJournal(disk, phase, keyID, fault);
            && Orderly(after) && after.now == disk.now.(journal := after.now.journal)
            && after.stable.current in {disk.stable.current, disk.now.current}
            && (disk.stable.current.Keyring? ==> after.stable.current == disk.stable.current)
            && (outcome.Done? ==> after.stable == after.now && after.now.journal == Journal(phase, keyID))
            && (!outcome.Done? && !phase.Displayed? ==> !SaysDisplayed(after.now))
  {
  }

  lemma InitializeKeepsOrderly(disk: Disk, drawn: Drawn, fault: Fault)
    requires Orderly(disk) && drawn.master != "" && !SaysPersisted(disk.now) && !SaysPersisted(disk.stable)
    ensures var (after, outcome) := Initialize(disk, KeyIDOf(drawn.master), drawn.master, fault);
            && Orderly(after) && after.now.journal == disk.now.journal
            && after.now.current in {disk.now.current, FirstKeyring(drawn)}
            && after.stable.current in {disk.stable.current, after.now.current}
            && (disk.stable.current.Keyring? ==> after.stable.current == disk.stable.current)
            && (outcome.Done? ==> after.now.current.Keyring?)
            && (disk.now.current.Keyring? ==> after == disk)
  {
  }

  /** From a usable keyring on: whatever happens, the keyring stays, and a journal that says
      "displayed" was written over durable credentials for exactly this triple. */
  lemma PersistKeepsOrderly(disk: Disk, t: Triple, f: RunFaults)
    requires Orderly(disk) && disk.now.current.Keyring? && !SaysDisplayed(disk.now)
    ensures var ran := Persist(disk, t, f);
            && Orderly(ran.disk) && ran.disk.now.current == disk.now.current
            && ran.disk.stable.current in {disk.stable.current, disk.now.current}
            && (disk.stable.current.Keyring? ==> ran.disk.stable.current == disk.stable.current)
            && (SaysDisplayed(ran.disk.now) ==>
                  && ran.disk.now.credentials == ran.disk.stable.credentials == Credentials(CredentialsFor(t))
                  && ran.printout == if f.printing.Delivered? then Full(t) else Partial(t))
  {
  }

  /** What one attempt does, in any state of the journal. */
  lemma AttemptKeepsOrderly(disk: Disk, drawn: Drawn, f: RunFaults)
    requires Orderly(disk) && drawn.master != ""
    ensures var ran := RunOnce(disk, drawn, f);
            && Orderly(ran.disk)
            && ran.disk.now.current in {disk.now.current, FirstKeyring(drawn)}
            && ran.disk.stable.current in {disk.stable.current, disk.now.current, ran.disk.now.current}
            && (disk.now.current.Keyring? ==> ran.disk.now.current == disk.now.current)
            && (disk.stable.current.Keyring? ==> ran.disk.stable.current == disk.stable.current)
            && (SaysDisplayed(disk.now) ==> ran.disk == disk && ran.printout.Nothing?)
  {
    if f.readable && !SaysDisplayed(disk.now) {
      if disk.now.journal.Journal? && disk.now.journal.phase.CredentialsPersisted? {
        var loaded := if f.loads then LoadActive(disk.now) else NotLoaded;
        if loaded.Loaded? && f.random {
          PersistKeepsOrderly(disk, TripleFrom(drawn, loaded), f);
        }
      } else {
        JournalKeepsOrderly(disk, BootPrepared, "", f.prepared);
        var (noted, outcome) := WriteJournal(disk, BootPrepared, "", f.prepared);
        if outcome.Done? && f.random {
          InitializeKeepsOrderly(noted, drawn, f.initialize);
          var (keyed, keyOutcome) := Initialize(noted, KeyIDOf(drawn.master), drawn.master, f.initialize);
          if keyOutcome.Done? {
            PersistKeepsOrderly(keyed, TripleFrom(drawn, if f.loads then LoadActive(keyed.now) else NotLoaded), f);
          }
        }
      }
    }
  }

  lemma OutageKeepsOrderly(disk: Disk, loss: Loss)
    requires Orderly(disk)
    ensures Orderly(PowerLoss(disk, loss))
    ensures disk.stable.current.Keyring? ==> PowerLoss(disk, loss).stable.current == disk.stable.current
  {
  }

  lemma FlushKeepsOrderly(disk: Disk, pending: Loss)
    requires Orderly(disk)
    ensures Orderly(WriteOut(disk, pending))
    ensures disk.stable.current.Keyring? ==> WriteOut(disk, pending).stable.current == disk.stable.current
  {
  }

  /** The first durable Master Key is never replaced, over any run of attempts, each stopped by any
      error or death, and power losses; without an outage this holds from its first visibility. */
  lemma {:induction false} FirstMasterIsKept(s: Site, events: seq<Event>)
    requires Orderly(s.disk) && forall i :: 0 <= i < |events| ==> Supplied(events[i])
    ensures var end := Run(s, events).disk;
            && Orderly(end)
            && (s.disk.stable.current.Keyring? ==>
                  end.stable.current == end.now.current == s.disk.stable.current
                  && LoadActive(end.now) == LoadActive(s.disk.stable))
            && (s.disk.now.current.Keyring? && (forall i :: 0 <= i < |events| ==> !events[i].Outage?) ==>
                  end.now.current == s.disk.now.current)
    decreases |events|
  {
    if events != [] {
      assert Supplied(events[0]);
      match events[0] {
        case Attempt(drawn, f) => AttemptKeepsOrderly(s.disk, drawn, f);
        case Outage(loss) => OutageKeepsOrderly(s.disk, loss);
        case Flush(pending) => FlushKeepsOrderly(s.disk, pending);
      }
      FirstMasterIsKept(Step(s, events[0]), events[1..]);
    }
  }

  /** Once "displayed" is durable nothing is ever printed or changed again. */
  lemma {:induction false} NothingAfterDisplayed(s: Site, events: seq<Event>)
    requires Orderly(s.disk) && SaysDisplayed(s.disk.now)
    requires SaysDisplayed(s.disk.stable) || forall i :: 0 <= i < |events| ==> !events[i].Outage?
    ensures var end := Run(s, events);
            && end.out == s.out && SaysDisplayed(end.disk.now) && end.disk.now.current == s.disk.now.current
            && ((forall i :: 0 <= i < |events| ==> events[i].Attempt?) ==> end == s)
    decreases |events|
  {
    if events != [] {
      var next := Step(s, events[0]);
      if events[0].Outage? {
        OutageKeepsOrderly(s.disk, events[0].loss);
      } else if events[0].Flush? {
        FlushKeepsOrderly(s.disk, events[0].pending);
      } else {
        assert next == s;
      }
      NothingAfterDisplayed(next, events[1..]);
    }
  }

  // ---- What was displayed is what is persisted ----

  /** The hash verifies, the envelope opens under the active master to the relay key shown. */
  predicate Matches(e: Entries, t: Triple) {
    && e.credentials.Credentials?
    && e.credentials.doc.adminHash == Argon2(t.admin)
    && e.credentials.doc.relayKey == Envelope(t.master, t.relay)
    && e.credentials.doc.masterKeyID == t.keyID
    && LoadActive(e) == Loaded(t.keyID, t.master)
  }

  /** The last thing printed is a full triple, and both views of the directory hold exactly it. */
  predicate Delivers(s: Site) {
    && s.out != [] && s.out[|s.out| - 1].Full?
    && Matches(s.disk.now, s.out[|s.out| - 1].t) && Matches(s.disk.stable, s.out[|s.out| - 1].t)
  }

  /** From persisting on: a journal that says "displayed" was written over durable credentials for
      exactly this triple and over a keyring that is the same in both views. */
  lemma PersistDisplays(disk: Disk, t: Triple, f: RunFaults)
    requires !SaysDisplayed(disk.now) && SaysDisplayed(Persist(disk, t, f).disk.now)
    ensures var ran := Persist(disk, t, f);
            && ran.disk.now.credentials == ran.disk.stable.credentials == Credentials(CredentialsFor(t))
            && ran.disk.now.current == ran.disk.stable.current == disk.now.current
            && ran.disk.now.previous == ran.disk.stable.previous == disk.now.previous
            && ran.printout == (if f.printing.Delivered? then Full(t) else Partial(t))
  {
  }

  /** What an attempt that ends with "displayed" has persisted and printed, over any keyring. */
  lemma DisplayedAttempt(disk: Disk, drawn: Drawn, f: RunFaults)
    requires !SaysDisplayed(disk.now) && SaysDisplayed(RunOnce(disk, drawn, f).disk.now)
    ensures var ran := RunOnce(disk, drawn, f);
            var t := TripleFrom(drawn, if f.loads then LoadActive(ran.disk.now) else NotLoaded);
            && ran.disk.now.credentials == ran.disk.stable.credentials == Credentials(CredentialsFor(t))
            && ran.disk.now.current == ran.disk.stable.current
            && ran.disk.now.previous == ran.disk.stable.previous == disk.now.previous
            && ran.printout == (if f.printing.Delivered? then Full(t) else Partial(t))
            && (!disk.now.current.NoKeyring? ==> ran.disk.now.current == disk.now.current)
            && (disk.now.current.NoKeyring? ==>
                  || ran.disk.now.current == FirstKeyring(drawn)
                  || (f.loads && LoadActive(ran.disk.now).Loaded?))
  {
    if disk.now.journal.Journal? && disk.now.journal.phase.CredentialsPersisted? {
      PersistDisplays(disk, TripleFrom(drawn, LoadActive(disk.now)), f);
    } else {
      var (noted, _) := WriteJournal(disk, BootPrepared, "", f.prepared);
      var (keyed, _) := Initialize(noted, KeyIDOf(drawn.master), drawn.master, f.initialize);
      PersistDisplays(keyed, TripleFrom(drawn, if f.loads then LoadActive(keyed.now) else NotLoaded), f);
    }
  }

  predicate Holds(k: KeyringContent, master: string) {
    k.Keyring? && k.doc.active == master
  }

  /** An attempt that ends with "displayed", over any keyring, corrupt or empty ones included, has
      delivered exactly when the output worked and an active key could be loaded, or there was no
      current keyring file to begin with. Nothing in the program checks the output, and a keyring that
      exists but does not load is passed over. */
  lemma DisplayedDeliversIff(s: Site, drawn: Drawn, f: RunFaults)
    requires drawn.master != "" && !SaysDisplayed(s.disk.now)
    requires SaysDisplayed(RunOnce(s.disk, drawn, f).disk.now)
    requires !Holds(s.disk.now.current, drawn.master) && !Holds(s.disk.now.previous, drawn.master)
    ensures Delivers(Step(s, Attempt(drawn, f))) <==>
              && f.printing.Delivered?
              && (s.disk.now.current.NoKeyring? || (f.loads && LoadActive(s.disk.now).Loaded?))
  {
    DisplayedAttempt(s.disk, drawn, f);
  }

  predicate Noticed(event: Event) {
    event.Attempt? ==> event.drawn.master != "" && event.f.loads && !event.f.printing.Garbled?
  }

  predicate Honest(s: Site) {
    Orderly(s.disk) && (SaysDisplayed(s.disk.now) ==> Delivers(s))
  }

  lemma DisplayedIsHonest(s: Site, drawn: Drawn, f: RunFaults)
    requires Orderly(s.disk) && Noticed(Attempt(drawn, f)) && !SaysDisplayed(s.disk.now)
    requires SaysDisplayed(RunOnce(s.disk, drawn, f).disk.now)
    ensures Delivers(Step(s, Attempt(drawn, f)))
  {
    AttemptKeepsOrderly(s.disk, drawn, f);
    DisplayedAttempt(s.disk, drawn, f);
  }

  lemma AttemptKeepsHonest(s: Site, drawn: Drawn, f: RunFaults)
    requires Honest(s) && Noticed(Attempt(drawn, f))
    ensures Honest(Step(s, Attempt(drawn, f)))
  {
    AttemptKeepsOrderly(s.disk, drawn, f);
    if !SaysDisplayed(s.disk.now) && SaysDisplayed(RunOnce(s.disk, drawn, f).disk.now) {
      DisplayedIsHonest(s, drawn, f);
    }
  }

  /** Over every run of attempts and outages whose output and keyring reads work: whenever the
      journal says displayed, the last printed triple is exactly what is persisted. */
  lemma {:induction false} DisplayedIsPersisted(s: Site, events: seq<Event>)
    requires Honest(s) && forall i :: 0 <= i < |events| ==> Noticed(events[i])
    ensures Honest(Run(s, events))
    decreases |events|
  {
    if events != [] {
      assert Noticed(events[0]);
      match events[0] {
        case Attempt(drawn, f) => AttemptKeepsHonest(s, drawn, f);
        case Outage(loss) => OutageKeepsOrderly(s.disk, loss);
        case Flush(pending) => FlushKeepsOrderly(s.disk, pending);
      }
      DisplayedIsPersisted(Step(s, events[0]), events[1..]);
    }
  }

  const SMOOTH := RunFaults(true, NoFault, true, NoFault, true, true, NoFault, NoFault, Delivered, NoFault)

  lemma SmoothAttemptDisplays(disk: Disk, drawn: Drawn)
    requires Orderly(disk) && drawn.master != ""
    ensures var after := RunOnce(disk, drawn, SMOOTH).disk;
            SaysDisplayed(after.now) && (!SaysDisplayed(disk.now) ==> SaysDisplayed(after.stable))
  {
  }

  /** An undisturbed attempt completes from any readable state that is not yet displayed. */
  lemma SmoothAttemptDelivers(s: Site, drawn: Drawn)
    requires Orderly(s.disk) && drawn.master != "" && !SaysDisplayed(s.disk.now)
    ensures var end := Step(s, Attempt(drawn, SMOOTH));
            Delivers(end) && SaysDisplayed(end.disk.now) && SaysDisplayed(end.disk.stable)
  {
    SmoothAttemptDisplays(s.disk, drawn);
    AttemptKeepsOrderly(s.disk, drawn, SMOOTH);
    DisplayedAttempt(s.disk, drawn, SMOOTH);
  }

  /** A keyring that exists but cannot be read, with no usable previous copy, is passed over: the
      attempt completes and shows a master that no file holds. */
  lemma UnreadableKeyringIsPassedOver(disk: Disk, drawn: Drawn)
    requires disk.now.current.CorruptKeyring? && !disk.now.previous.Keyring? && disk.now.journal.NoJournal?
    ensures var ran := RunOnce(disk, drawn, SMOOTH);
            && ran.answer == Shown(TripleFrom(drawn, NotLoaded)) && SaysDisplayed(ran.disk.now)
            && LoadActive(ran.disk.now) == NotLoaded
            && ran.disk.now.credentials.doc.relayKey == Envelope(drawn.master, drawn.relay)
  {
  }

  // ---- What a completed bootstrap hands to Master Key rotation ----

  predicate BetweenRotations(k: KeyringContent) {
    k.Keyring? ==> k.doc.phase.Idle? && k.doc.pending == ""
  }

  lemma {:induction false} KeyringStaysIdle(s: Site, events: seq<Event>)
    requires Orderly(s.disk) && forall i :: 0 <= i < |events| ==> Supplied(events[i])
    requires BetweenRotations(s.disk.now.current) && BetweenRotations(s.disk.stable.current)
    ensures BetweenRotations(Run(s, events).disk.now.current)
    decreases |events|
  {
    if events != [] {
      assert Supplied(events[0]);
      match events[0] {
        case Attempt(drawn, f) => AttemptKeepsOrderly(s.disk, drawn, f);
        case Outage(loss) => OutageKeepsOrderly(s.disk, loss);
        case Flush(pending) => FlushKeepsOrderly(s.disk, pending);
      }
      KeyringStaysIdle(Step(s, events[0]), events[1..]);
    }
  }

  lemma DeliveredSiteIsSafe(s: Site, rid: string)
    requires Honest(s) && SaysDisplayed(s.disk.now) && BetweenRotations(s.disk.now.current)
    ensures var t := s.out[|s.out| - 1].t;
            Safety.Invariant(Rotation.World(s.disk, Rotation.Database(t.master, rid), Rotation.Down), {t.relay})
  {
    var t := s.out[|s.out| - 1].t;
    var db := Rotation.Database(t.master, rid);
    forall loss: Loss ensures Safety.Consistent(PowerLoss(s.disk, loss).now, db, {t.relay}) {
    }
  }

  /** However the bootstrap of an empty directory went: once it says displayed, a database created
      under the displayed master starts in the invariant that every later run of rotations,
      crashes and recoveries keeps, with the displayed relay key as its secret. */
  lemma DisplayedSiteIsSafe(events: seq<Event>, rid: string)
    requires forall i :: 0 <= i < |events| ==> Noticed(events[i])
    requires SaysDisplayed(Run(EMPTY_SITE, events).disk.now)
    ensures var end := Run(EMPTY_SITE, events);
            && Delivers(end)
            && (var t := end.out[|end.out| - 1].t;
                Safety.Invariant(Rotation.World(end.disk, Rotation.Database(t.master, rid), Rotation.Down), {t.relay}))
  {
    assert forall i :: 0 <= i < |events| ==> Noticed(events[i]) ==> Supplied(events[i]);
    DisplayedIsPersisted(EMPTY_SITE, events);
    KeyringStaysIdle(EMPTY_SITE, events);
    DeliveredSiteIsSafe(Run(EMPTY_SITE, events), rid);
  }

  const EMPTY_ENTRIES := Entries(NoKeyring, NoKeyring, NoCredentials, NoJournal)
  const EMPTY_SITE := Site(Disk(EMPTY_ENTRIES, EMPTY_ENTRIES), [])

  // ---- The bootstrap object ----

  class Installer {
    const files: File
    var out: seq<Printout>

    constructor (files: File)
      ensures this.files == files && out == []
    {
      this.files, out := files, [];
    }

    function Printed(before: seq<Printout>, ran: Ran): seq<Printout> {
      if ran.printout.Nothing? then before else before + [ran.printout]
    }

    method DisplayTriple(t: Triple, f: RunFaults) returns (answer: Answer)
      modifies this, files
      ensures var ran := Display(old(files.disk), t, f);
              files.disk == ran.disk && answer == ran.answer && out == Printed(old(out), ran)
    {
      if f.printing.Died? {
        out := out + [if f.printing.complete then Full(t) else Partial(t)];
        return Dead;
      }
      out := out + [if f.printing.Delivered? then Full(t) else Partial(t)];
      var outcome := files.WriteJournalFile(Displayed, t.keyID, f.displayed);
      if !outcome.Done? {
        return if outcome.Crashed? then Dead else Rejected;
      }
      return Shown(t);
    }

    method PersistAndDisplay(t: Triple, f: RunFaults) returns (answer: Answer)
      modifies this, files
      ensures var ran := Persist(old(files.disk), t, f);
              files.disk == ran.disk && answer == ran.answer && out == Printed(old(out), ran)
    {
      if !f.crypto {
        return Rejected;
      }
      var outcome := files.WriteCredentialsFile(CredentialsFor(t), f.credentials);
      if !outcome.Done? {
        return if outcome.Crashed? then Dead else Rejected;
      }
      outcome := files.WriteJournalFile(CredentialsPersisted, t.keyID, f.persisted);
      if !outcome.Done? {
        return if outcome.Crashed? then Dead else Rejected;
      }
      answer := DisplayTriple(t, f);
    }

    method Install(drawn: Drawn, f: RunFaults) returns (answer: Answer)
      modifies this, files
      ensures var ran := FreshInstall(old(files.disk), drawn, f);
              files.disk == ran.disk && answer == ran.answer && out == Printed(old(out), ran)
    {
      var outcome := files.WriteJournalFile(BootPrepared, "", f.prepared);
      if !outcome.Done? {
        return if outcome.Crashed? then Dead else Rejected;
      }
      if !f.random {
        return Rejected;
      }
      var master, keyID := drawn.master, KeyIDOf(drawn.master);
      outcome := files.EnsureInitialized(keyID, master, f.initialize);
      if !outcome.Done? {
        return if outcome.Crashed? then Dead else Rejected;
      }
      if f.loads {
        var loaded := files.LoadActiveKey();
        if loaded.Loaded? {
          master, keyID := loaded.master, loaded.keyID;
        }
      }
      answer := PersistAndDisplay(Triple(drawn.admin, drawn.relay, master, keyID), f);
    }

    method Resume(drawn: Drawn, f: RunFaults) returns (answer: Answer)
      modifies this, files
      ensures var ran := ResumeUndelivered(old(files.disk), drawn, f);
              files.disk == ran.disk && answer == ran.answer && out == Printed(old(out), ran)
    {
      if !f.loads {
        return Rejected;
      }
      var loaded := files.LoadActiveKey();
      if loaded.NotLoaded? || !f.random {
        return Rejected;
      }
      answer := PersistAndDisplay(Triple(drawn.admin, drawn.relay, loaded.master, loaded.keyID), f);
    }

    /** One attempt; with a working output and keyring what it calls displayed is what is persisted. */
    method RunBootstrap(drawn: Drawn, f: RunFaults) returns (answer: Answer)
      modifies this, files
      ensures answer == RunOnce(old(files.disk), drawn, f).answer
      ensures Site(files.disk, out) == Step(Site(old(files.disk), old(out)), Attempt(drawn, f))
      ensures Orderly(old(files.disk)) && drawn.master != "" ==> Orderly(files.disk)
      ensures Honest(Site(old(files.disk), old(out))) && Noticed(Attempt(drawn, f)) ==> Honest(Site(files.disk, out))
    {
      ghost var before := Site(files.disk, out);
      answer := Dispatch(drawn, f);
      if Orderly(before.disk) && drawn.master != "" {
        AttemptKeepsOrderly(before.disk, drawn, f);
      }
      if Honest(before) && Noticed(Attempt(drawn, f)) {
        AttemptKeepsHonest(before, drawn, f);
      }
    }

    method Dispatch(drawn: Drawn, f: RunFaults) returns (answer: Answer)
      modifies this, files
      ensures answer == RunOnce(old(files.disk), drawn, f).answer
      ensures Site(files.disk, out) == Step(Site(old(files.disk), old(out)), Attempt(drawn, f))
    {
      if !f.readable {
        return Rejected;
      }
      match files.disk.now.journal {
        case CorruptJournal => answer := Rejected;
        case NoJournal => answer := Install(drawn, f);
        case Journal(phase, _) =>
          match phase {
            case Displayed => answer := AlreadyShown;
            case CredentialsPersisted => answer := Resume(drawn, f);
            case BootPrepared => answer := Install(drawn, f);
            case UnknownBoot(name) =>
              if name == "" {
                answer := Install(drawn, f);
              } else {
                answer := Rejected;
              }
          }
      }
    }
  }
}
