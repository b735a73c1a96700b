/** The secrets over the whole life of a deployment: first start, then any mix of Master Key
    rotations, relay-key rotations, deaths, power losses and recoveries. */
module GatewayRuns {
  import opened Secrets
  import opened Rotation = MasterRotation
  import Safety = MasterRotationSafety
  import Relay = RelayCredentials
  import Bootstrap

  datatype Event = Master(event: Safety.Event) | RelayRotation(newKey: string, at: int, f: Relay.RotateFaults)

  /** The credential service's view of a running process; extra keys and an older grace window play no part. */
  function MemoryOf(process: Process): Relay.Memory
    requires process.Up?
  {
    Relay.Memory(Relay.Held(process.relayDigest), process.sealed, NoGrace, {})
  }

  /** The credential service rotates under the live cipher. */
  function ServeRelay(w: World, newKey: string, now: int, f: Relay.RotateFaults): (World, Outcome)
    requires w.process.Up?
  {
    var (disk, m, outcome) :=
      Relay.Rotate(w.disk, MemoryOf(w.process), Relay.Setup(true, Relay.Under(w.process.live)), newKey, now, f);
    if outcome.Crashed? then (w.(disk := disk, process := Down), outcome)
    else if outcome.Failed? then (w.(disk := disk), outcome)
    else (w.(disk := disk, process := w.process.(sealed := m.activeEnc, relayDigest := m.active.digest)), outcome)
  }

  /** Refused during maintenance. */
  function RotateRelay(w: World, newKey: string, now: int, f: Relay.RotateFaults): (World, Outcome) {
    if !w.process.Up? || w.process.maintenance then (w, Failed) else ServeRelay(w, newKey, now, f)
  }

  function Step(w: World, event: Event): World {
    match event
    case Master(e) => Safety.Step(w, e)
    case RelayRotation(newKey, at, f) => RotateRelay(w, newKey, at, f).0
  }

  function Run(w: World, events: seq<Event>): World
    decreases |events|
  {
    if events == [] then w else Run(Step(w, events[0]), events[1..])
  }

  predicate Plausible(w: World, event: Event) {
    match event
    case Master(e) => Safety.Plausible(w, [e])
    case RelayRotation(newKey, _, _) => newKey != ""
  }

  predicate PlausibleRun(w: World, events: seq<Event>)
    decreases |events|
  {
    events == [] || (Plausible(w, events[0]) && PlausibleRun(Step(w, events[0]), events[1..]))
  }

  /** The relay keys an event brings in: drawn by a rotation, whatever becomes of it, or taken from
      the environment by a start. */
  function BroughtBy(event: Event): set<string> {
    match event
    case Master(e) => Safety.FromEnvironment([e])
    case RelayRotation(newKey, _, _) => {newKey}
  }

  function Brought(events: seq<Event>): set<string>
    decreases |events|
  {
    if events == [] then {} else BroughtBy(events[0]) + Brought(events[1..])
  }

  /** A relay-key rotation with any fault keeps the invariant for the known keys and the new one. */
  lemma RelayRotationSafe(w: World, secrets: set<string>, newKey: string, now: int, f: Relay.RotateFaults)
    requires Safety.Invariant(w, secrets)
    ensures Safety.Invariant(RotateRelay(w, newKey, now, f).0, secrets + {newKey})
  {
    Safety.MoreSecrets(w, secrets, secrets + {newKey});
    if w.process.Up? && !w.process.maintenance {
      var stored := w.disk.now.credentials;
      var doc := if stored.Credentials? then stored.doc else Relay.NEW_DOCUMENT;
      var version := if doc.formatVersion == 0 then 1 else doc.formatVersion;
      var next := doc.(formatVersion := version, relayKey := Envelope(w.process.live, newKey),
                       grace := Relay.NextGrace(MemoryOf(w.process), now));
      Safety.CredentialsWriteSafe(w.disk, w.db, secrets + {newKey}, next, f.file);
    }
  }

  lemma StepSafe(w: World, secrets: set<string>, event: Event)
    requires Safety.Invariant(w, secrets) && Plausible(w, event)
    ensures Safety.Invariant(Step(w, event), secrets + BroughtBy(event))
  {
    match event
    case Master(e) => Safety.StepSafe(w, secrets, e);
    case RelayRotation(newKey, at, f) => RelayRotationSafe(w, secrets, newKey, at, f);
  }

  /** Over every mix of Master Key rotations, relay-key rotations, deaths, power losses and
      recoveries, with any fault at any step of any of them: the database opens under the active or
      pending key, the persisted relay key is one the deployment was given and opens under one of
      those two, and with maintenance off everything is under the active key. */
  lemma {:induction false} EveryGatewayRunStaysDecryptable(w: World, secrets: set<string>, events: seq<Event>)
    requires Safety.Invariant(w, secrets) && PlausibleRun(w, events)
    ensures Safety.Invariant(Run(w, events), secrets + Brought(events))
    ensures Safety.Decryptable(Run(w, events), secrets + Brought(events))
    decreases |events|
  {
    if events == [] {
      assert secrets + Brought(events) == secrets;
      Safety.EveryRunStaysDecryptable(w, secrets, []);
      assert secrets + Safety.FromEnvironment([]) == secrets;
    } else {
      StepSafe(w, secrets, events[0]);
      EveryGatewayRunStaysDecryptable(Step(w, events[0]), secrets + BroughtBy(events[0]), events[1..]);
      assert secrets + BroughtBy(events[0]) + Brought(events[1..]) == secrets + Brought(events);
    }
  }

  // ---- A password reset that holds an older copy of the credentials file ----

  lemma {:induction false} RelayRotationsKeepKeyring(w: World, rotations: seq<Event>)
    requires forall i :: 0 <= i < |rotations| ==> rotations[i].RelayRotation?
    ensures var end := Run(w, rotations);
            && end.db == w.db && end.disk.now.current == w.disk.now.current
            && end.disk.stable.current in {w.disk.stable.current, w.disk.now.current}
    decreases |rotations|
  {
    if rotations != [] {
      RelayRotationsKeepKeyring(Step(w, rotations[0]), rotations[1..]);
    }
  }

  /** Writing back an older relay key is safe while database and keyring are still those it was read with. */
  lemma StaleWriteSafe(older: Disk, disk: Disk, db: Database, secrets: set<string>, doc: Persisted, fault: Fault)
    requires Safety.Safe(older, db, secrets) && Safety.Safe(disk, db, secrets)
    requires doc.relayKey == Relay.ReadForReset(older.now).relayKey
    requires disk.now.current == older.now.current
    requires disk.stable.current in {older.stable.current, older.now.current}
    ensures Safety.Safe(WriteCredentials(disk, doc, fault).0, db, secrets)
  {
    var after := WriteCredentials(disk, doc, fault).0;
    forall loss: Loss ensures Safety.Consistent(PowerLoss(after, loss).now, db, secrets) {
      assert Safety.Consistent(PowerLoss(older, KEPT.(current := true)).now, db, secrets);
      assert Safety.Consistent(PowerLoss(disk, loss).now, db, secrets);
    }
  }

  /** The write fence lets relay-key rotations pass between the read and the write of a password reset.
      Its write takes the file back to the older relay key, but never to one that no longer opens. */
  lemma StaleResetIsSafe(w: World, secrets: set<string>, rotations: seq<Event>, hash: AdminHash, fault: Fault)
    requires Safety.Invariant(w, secrets)
    requires forall i :: 0 <= i < |rotations| ==> rotations[i].RelayRotation?
    requires PlausibleRun(w, rotations)
    ensures var end, all := Run(w, rotations), secrets + Brought(rotations);
            Safety.Safe(Relay.ResetAdmin(end.disk, Relay.ReadForReset(w.disk.now), hash, fault).0, end.db, all)
  {
    var end, all, read := Run(w, rotations), secrets + Brought(rotations), Relay.ReadForReset(w.disk.now);
    EveryGatewayRunStaysDecryptable(w, secrets, rotations);
    RelayRotationsKeepKeyring(w, rotations);
    Safety.MoreSecrets(w, secrets, all);
    var version := if read.formatVersion == 0 then 1 else read.formatVersion;
    StaleWriteSafe(w.disk, end.disk, w.db, all, read.(formatVersion := version, adminHash := hash), fault);
  }

  const KEPT := Loss(false, false, false, false)

  // ---- The key in force, where no relay-key rotation stops between rename and directory sync ----

  /** A rotation stopped there leaves two candidates for the key in force. */
  predicate Settled(w: World, secret: string, event: Event) {
    match event
    case Master(e) => e.Boot? ==> e.environment.relay in {"", secret}
    case RelayRotation(_, _, f) => f.file != Fail(3) && f.file != Crash(3)
  }

  /** The relay key clients are meant to hold: only a completed relay-key rotation changes it. */
  function InForce(w: World, secret: string, event: Event): string {
    if event.RelayRotation? && RotateRelay(w, event.newKey, event.at, event.f).1.Done? then event.newKey else secret
  }

  function KeyInForce(w: World, secret: string, events: seq<Event>): string
    decreases |events|
  {
    if events == [] then secret else KeyInForce(Step(w, events[0]), InForce(w, secret, events[0]), events[1..])
  }

  predicate SettledRun(w: World, secret: string, events: seq<Event>)
    decreases |events|
  {
    events == [] ||
    (Settled(w, secret, events[0]) && SettledRun(Step(w, events[0]), InForce(w, secret, events[0]), events[1..]))
  }

  lemma SettledStepSafe(w: World, secret: string, event: Event)
    requires Safety.Invariant(w, {secret}) && Plausible(w, event) && Settled(w, secret, event)
    ensures Safety.Invariant(Step(w, event), {InForce(w, secret, event)})
  {
    match event
    case Master(e) =>
      Safety.StepSafe(w, {secret}, e);
      Safety.OnlyTheSecret(secret, [e]);
      assert {secret} + Safety.FromEnvironment([e]) == {secret};
    case RelayRotation(newKey, at, f) =>
      var (after, outcome) := RotateRelay(w, newKey, at, f);
      if outcome.Done? {
        Safety.SafeSynced(after.disk, w.db, {newKey});
      } else {
        assert after.disk == w.disk;
      }
  }

  /** Then the persisted relay key is the one in force, and no other. */
  lemma {:induction false} PersistedKeyIsInForce(w: World, secret: string, events: seq<Event>)
    requires Safety.Invariant(w, {secret}) && PlausibleRun(w, events) && SettledRun(w, secret, events)
    ensures Safety.Invariant(Run(w, events), {KeyInForce(w, secret, events)})
    ensures Safety.Decryptable(Run(w, events), {KeyInForce(w, secret, events)})
    decreases |events|
  {
    if events == [] {
      Safety.RelayKeyNeverChanges(w, secret, []);
    } else {
      SettledStepSafe(w, secret, events[0]);
      PersistedKeyIsInForce(Step(w, events[0]), InForce(w, secret, events[0]), events[1..]);
    }
  }

  /** From an empty directory: however the first start went, once its triple was displayed the database
      created under the displayed master, and every later run with any faults, stay decryptable. */
  lemma FromEmptyDirectory(boots: seq<Bootstrap.Event>, rid: string, events: seq<Event>)
    requires forall i :: 0 <= i < |boots| ==> Bootstrap.Noticed(boots[i])
    requires Bootstrap.SaysDisplayed(Bootstrap.Run(Bootstrap.EMPTY_SITE, boots).disk.now)
    requires PlausibleRun(StartOf(Bootstrap.Run(Bootstrap.EMPTY_SITE, boots), rid), events)
    ensures var first := Bootstrap.Run(Bootstrap.EMPTY_SITE, boots);
            && Bootstrap.Delivers(first)
            && Safety.Decryptable(Run(StartOf(first, rid), events), {Shown(first).relay} + Brought(events))
  {
    var first := Bootstrap.Run(Bootstrap.EMPTY_SITE, boots);
    Bootstrap.DisplayedSiteIsSafe(boots, rid);
    EveryGatewayRunStaysDecryptable(StartOf(first, rid), {Shown(first).relay}, events);
  }

  /** The triple the operator saw last, if any. */
  function Shown(first: Bootstrap.Site): Bootstrap.Triple {
    if first.out != [] && first.out[|first.out| - 1].Full? then first.out[|first.out| - 1].t
    else Bootstrap.Triple("", "", "", "")
  }

  /** The stopped gateway with a database under the displayed master. */
  function StartOf(first: Bootstrap.Site, rid: string): World {
    World(first.disk, Database(Shown(first).master, rid), Down)
  }
}
