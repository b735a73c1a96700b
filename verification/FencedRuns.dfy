/** Why rotations may be taken as atomic: requests interleave step by step, and the write fence and the
    lock of the credential service keep the two kinds of rotation apart. */
module FencedRuns {
  import opened Secrets
  import opened Rotation = MasterRotation
  import Safety = MasterRotationSafety
  import Relay = RelayCredentials
  import Fence = MutationAdmission
  import Gateway = GatewayRuns

  /** A rotation at work goes by what it found when it began. */
  datatype Work = Resting | Working(id: nat, found: World)

  /** `passed` are the mutations inside the fence that found maintenance off; `entering` is the Master
      Key rotation that has switched maintenance on and not yet left. */
  datatype System = System(w: World, gate: Fence.Gate, passed: set<nat>, relay: Work,
                           entering: set<nat>, master: Work)

  /** Requests of mutations carry a ticket, requests for a Master Key rotation an id. */
  datatype Event =
    | Arrive(ticket: nat)
    | Check(ticket: nat)
    | LockRelay(ticket: nat)
    | RelayDone(newKey: string, at: int, f: Relay.RotateFaults)
    | Depart(ticket: nat)
    | EnterMaintenance(id: nat)
    | Freeze(id: nat)
    | GiveUp(id: nat)
    | Granted(id: nat)
    | MasterDone(newMaster: string, rid: string, faults: RotationFaults)
    | Machine(event: Safety.Event)

  predicate InMaintenance(sys: System) {
    sys.entering != {} || (sys.w.process.Up? && sys.w.process.maintenance)
  }

  /** A mutation leaves when its handler is done, the lock of the credential service admits one rotation
      at a time, a Master Key rotation freezes after switching maintenance on, gives up when the fence
      was refused or took too long, and starts once it is granted. The machine acts between rotations:
      a death in the middle of one is a fault of that rotation. */
  predicate Enabled(sys: System, event: Event) {
    && (sys.w.process.Up? || event.Machine?)
    && match event
       case Arrive(ticket) => Fence.Enabled(sys.gate, Fence.Enter(ticket))
       case Check(ticket) => ticket in sys.gate.inside
       case LockRelay(ticket) => ticket in sys.passed && sys.relay.Resting?
       case RelayDone(newKey, _, _) => sys.relay.Working? && newKey != ""
       case Depart(ticket) =>
         Fence.Enabled(sys.gate, Fence.Leave(ticket)) && (sys.relay.Working? ==> ticket != sys.relay.id)
       case EnterMaintenance(id) => id !in sys.gate.freezers
       case Freeze(id) => id in sys.entering && Fence.Enabled(sys.gate, Fence.Freeze(id))
       case GiveUp(id) => id in sys.entering && id in sys.gate.freezers && !sys.gate.freezers[id].Holding?
       case Granted(id) => Fence.Enabled(sys.gate, Fence.Drained(id))
       case MasterDone(_, rid, _) => sys.master.Working? && Safety.Fresh(rid, sys.master.found.db)
       case Machine(e) => !e.Rotate? && sys.relay.Resting? && sys.master.Resting?
  }

  /** What a finished event did to the deployment, if anything. */
  function Served(sys: System, event: Event): seq<Gateway.Event> {
    match event
    case RelayDone(newKey, at, f) => [Gateway.RelayRotation(newKey, at, f)]
    case MasterDone(newMaster, rid, f) => [Gateway.Master(Safety.Rotate(newMaster, rid, f))]
    case Machine(e) => [Gateway.Master(e)]
    case _ => []
  }

  /** A rotation writes back a world computed from the one it found, with no second look. */
  function Step(sys: System, event: Event): System {
    match event
    case Arrive(ticket) => sys.(gate := Fence.Step(sys.gate, Fence.Enter(ticket)))
    case Check(ticket) => if InMaintenance(sys) then sys else sys.(passed := sys.passed + {ticket})
    case LockRelay(ticket) => sys.(relay := Working(ticket, sys.w))
    case RelayDone(newKey, at, f) =>
      if sys.relay.Resting? || !sys.relay.found.process.Up? then sys
      else sys.(w := Gateway.ServeRelay(sys.relay.found, newKey, at, f).0, relay := Resting)
    case Depart(ticket) =>
      sys.(gate := Fence.Step(sys.gate, Fence.Leave(ticket)), passed := sys.passed - {ticket})
    case EnterMaintenance(id) => if InMaintenance(sys) then sys else sys.(entering := {id})
    case Freeze(id) => sys.(gate := Fence.Step(sys.gate, Fence.Freeze(id)))
    case GiveUp(id) =>
      sys.(entering := {},
           gate := if id in sys.gate.freezers && sys.gate.freezers[id].Waiting?
                   then Fence.Step(sys.gate, Fence.TimedOut(id)) else sys.gate)
    case Granted(id) => sys.(gate := Fence.Step(sys.gate, Fence.Drained(id)), master := Working(id, sys.w))
    case MasterDone(newMaster, rid, f) =>
      if sys.master.Resting? || !sys.master.found.process.Up? then sys
      else
        sys.(w := RotateMaster(sys.master.found, newMaster, rid, f).0, master := Resting, entering := {},
             gate := Fence.Step(sys.gate, Fence.Release(sys.master.id)))
    case Machine(e) =>
      if e.Flush? then sys.(w := Safety.Step(sys.w, e)) else Fresh(Safety.Step(sys.w, e))
  }

  /** A process that died or was started anew has an open fence and nobody inside. */
  function Fresh(w: World): System {
    System(w, Fence.EMPTY, {}, Resting, {}, Resting)
  }

  function Run(sys: System, events: seq<Event>): System
    decreases |events|
  {
    if events == [] then sys else Run(Step(sys, events[0]), events[1..])
  }

  predicate EnabledRun(sys: System, events: seq<Event>)
    decreases |events|
  {
    events == [] || (Enabled(sys, events[0]) && EnabledRun(Step(sys, events[0]), events[1..]))
  }

  /** The rotations of a run in the order in which they finished, with what the machine did between. */
  function Serial(sys: System, events: seq<Event>): seq<Gateway.Event>
    decreases |events|
  {
    if events == [] then [] else Served(sys, events[0]) + Serial(Step(sys, events[0]), events[1..])
  }

  // ---- The invariant ----

  /** A relay-key rotation at work has its mutation inside the fence and found the world as it is. */
  predicate RelayValid(sys: System) {
    && sys.passed <= sys.gate.inside
    && (sys.passed != {} ==> sys.w.process.Up? && !sys.w.process.maintenance)
    && (sys.relay.Working? ==> sys.relay.id in sys.passed && sys.relay.found == sys.w)
  }

  /** So has a Master Key rotation, and it holds the fence; only the one that entered maintenance freezes. */
  ghost predicate MasterValid(sys: System) {
    && (forall a, b :: a in sys.entering && b in sys.entering ==> a == b)
    && (forall id :: Fence.Unreleased(sys.gate, id) ==> id in sys.entering)
    && (sys.master.Working? ==>
          && sys.master.id in sys.gate.freezers && sys.gate.freezers[sys.master.id].Holding?
          && sys.master.found == sys.w)
  }

  ghost predicate Valid(sys: System) {
    if sys.w.process.Up? then Fence.Valid(sys.gate) && RelayValid(sys) && MasterValid(sys)
    else sys.relay.Resting? && sys.master.Resting?
  }

  /** While a Master Key rotation is at work, nobody is inside the fence. */
  lemma MasterWorksAlone(sys: System)
    requires Valid(sys) && sys.master.Working?
    ensures sys.gate.inside == {} && sys.passed == {} && sys.relay.Resting?
  {
    assert Fence.Unreleased(sys.gate, sys.master.id);
    assert |sys.gate.inside| == 0;
  }

  lemma MutationMoves(sys: System, event: Event)
    requires Valid(sys) && Enabled(sys, event) && (event.Arrive? || event.Depart?)
    ensures Valid(Step(sys, event))
  {
    var fence := if event.Arrive? then Fence.Enter(event.ticket) else Fence.Leave(event.ticket);
    Fence.StepKeepsValid(sys.gate, fence);
    Fence.OthersUnchanged(sys.gate, fence);
  }

  lemma MasterMoves(sys: System, event: Event)
    requires Valid(sys) && Enabled(sys, event) && (event.Freeze? || event.GiveUp? || event.Granted?)
    ensures Valid(Step(sys, event))
  {
    if event.GiveUp? && sys.gate.freezers[event.id].LetGo? {
      NobodyElseFreezes(sys, event.id);
    } else {
      var fence := if event.Freeze? then Fence.Freeze(event.id)
                   else if event.GiveUp? then Fence.TimedOut(event.id) else Fence.Drained(event.id);
      Fence.StepKeepsValid(sys.gate, fence);
      Fence.OthersUnchanged(sys.gate, fence);
    }
  }

  /** The freeze of the rotation in maintenance is over, so no freeze is left. */
  lemma NobodyElseFreezes(sys: System, id: nat)
    requires MasterValid(sys) && id in sys.entering && id in sys.gate.freezers && sys.gate.freezers[id].LetGo?
    ensures forall other :: !Fence.Unreleased(sys.gate, other)
    ensures sys.master.Resting?
  {
    assert sys.master.Working? ==> Fence.Unreleased(sys.gate, sys.master.id);
  }

  lemma MasterLeaves(sys: System, event: Event)
    requires Valid(sys) && Enabled(sys, event) && event.MasterDone?
    ensures Valid(Step(sys, event))
  {
    MasterWorksAlone(sys);
    Fence.StepKeepsValid(sys.gate, Fence.Release(sys.master.id));
    Fence.OthersUnchanged(sys.gate, Fence.Release(sys.master.id));
  }

  lemma StepKeepsValid(sys: System, event: Event)
    requires Valid(sys) && Enabled(sys, event)
    ensures Valid(Step(sys, event))
  {
    match event {
      case Arrive(_) => MutationMoves(sys, event);
      case Check(_) =>
      case LockRelay(_) =>
      case RelayDone(_, _, _) => if sys.master.Working? { MasterWorksAlone(sys); }
      case Depart(_) => MutationMoves(sys, event);
      case EnterMaintenance(_) =>
      case Freeze(_) => MasterMoves(sys, event);
      case GiveUp(_) => MasterMoves(sys, event);
      case Granted(_) => MasterMoves(sys, event);
      case MasterDone(_, _, _) => MasterLeaves(sys, event);
      case Machine(_) =>
    }
  }

  /** One step does to the deployment what its finished rotation does in the sequential run. */
  lemma StepIsSerial(sys: System, event: Event)
    requires Valid(sys) && Enabled(sys, event)
    ensures Step(sys, event).w == Gateway.Run(sys.w, Served(sys, event))
    ensures Gateway.PlausibleRun(sys.w, Served(sys, event))
  {
    if Served(sys, event) != [] {
      OneEvent(sys.w, Served(sys, event)[0]);
    }
  }

  lemma OneEvent(w: World, event: Gateway.Event)
    ensures Gateway.Run(w, [event]) == Gateway.Step(w, event)
    ensures Gateway.PlausibleRun(w, [event]) <==>
              if event.RelayRotation? then event.newKey != ""
              else event.event.Rotate? ==> Safety.Fresh(event.event.rid, w.db)
  {
    assert [event][1..] == [];
    assert Gateway.PlausibleRun(Gateway.Step(w, event), []);
    if event.Master? {
      assert [event.event][1..] == [];
      assert Safety.Plausible(Safety.Step(w, event.event), []);
    }
  }

  lemma RunBoth(w: World, first: seq<Gateway.Event>, rest: seq<Gateway.Event>)
    requires |first| <= 1
    ensures Gateway.Run(w, first + rest) == Gateway.Run(Gateway.Run(w, first), rest)
    ensures Gateway.PlausibleRun(w, first + rest)
            <==> Gateway.PlausibleRun(w, first) && Gateway.PlausibleRun(Gateway.Run(w, first), rest)
  {
    if first == [] {
      assert first + rest == rest;
    } else {
      assert first[1..] == [] && (first + rest)[1..] == rest;
    }
  }

  /** Requests may interleave step by step in any way the fence and the lock let them: no rotation ever
      overlaps another, none works from a stale view, and the deployment ends exactly where the same
      rotations lead one after the other. */
  lemma {:induction false} FencedRunsAreSequential(sys: System, events: seq<Event>)
    requires Valid(sys) && EnabledRun(sys, events)
    ensures var end := Run(sys, events);
            && Valid(end)
            && !(end.relay.Working? && end.master.Working?)
            && (end.master.Working? ==> end.gate.inside == {} && end.master.found == end.w)
            && (end.relay.Working? ==> end.relay.found == end.w)
            && end.w == Gateway.Run(sys.w, Serial(sys, events))
            && Gateway.PlausibleRun(sys.w, Serial(sys, events))
    decreases |events|
  {
    if events == [] {
      if sys.master.Working? {
        MasterWorksAlone(sys);
      }
    } else {
      var next := Step(sys, events[0]);
      StepKeepsValid(sys, events[0]);
      StepIsSerial(sys, events[0]);
      FencedRunsAreSequential(next, events[1..]);
      RunBoth(sys.w, Served(sys, events[0]), Serial(next, events[1..]));
    }
  }

  /** So everything proved about sequential runs holds for interleaved ones. */
  lemma FencedRunsStayDecryptable(w: World, secrets: set<string>, events: seq<Event>)
    requires Safety.Invariant(w, secrets) && EnabledRun(Fresh(w), events)
    ensures Safety.Decryptable(Run(Fresh(w), events).w, secrets + Gateway.Brought(Serial(Fresh(w), events)))
  {
    assert Valid(Fresh(w)) by {
      assert Fence.Valid(Fence.EMPTY);
    }
    FencedRunsAreSequential(Fresh(w), events);
    Gateway.EveryGatewayRunStaysDecryptable(w, secrets, Serial(Fresh(w), events));
  }
}
