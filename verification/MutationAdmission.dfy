/** The write fence around a rotation: admitted mutations are counted, a freeze waits for them. */
module MutationAdmission {

  /** One freeze call: waiting on a drain channel, holding the fence, or let go (by its release
      function or by its own timeout). sync.Once makes letting go final. */
  datatype Freezer = Waiting(channel: nat) | Holding | LetGo

  /** `closes[c]` counts how often channel c was closed; `inside` are the admitted mutations that
      have not left; the gate remembers the channel of its current busy period in `drained`. */
  datatype Gate = Gate(closed: bool, active: int, drained: nat, closes: seq<nat>,
                       inside: set<nat>, freezers: map<nat, Freezer>)

  datatype Event =
    | Enter(ticket: nat)
    | Leave(ticket: nat)
    | Freeze(id: nat)
    | TimedOut(id: nat)
    | Drained(id: nat)
    | Release(id: nat)

  const EMPTY := Gate(false, 0, 0, [], {}, map[])

  /** A leave closure runs once (it is deferred), a freeze has one outcome, and a ready drain
      channel is seen only after it was closed. Tickets and freeze ids are new. */
  predicate Enabled(g: Gate, event: Event) {
    match event
    case Enter(ticket) => ticket !in g.inside
    case Leave(ticket) => ticket in g.inside
    case Freeze(id) => id !in g.freezers
    case TimedOut(id) => id in g.freezers && g.freezers[id].Waiting?
    case Drained(id) => id in g.freezers && g.freezers[id].Waiting? && g.freezers[id].channel < |g.closes|
                        && g.closes[g.freezers[id].channel] > 0
    case Release(id) => id in g.freezers && !g.freezers[id].Waiting?
  }

  function Close(closes: seq<nat>, channel: nat): seq<nat> {
    if channel < |closes| then closes[channel := closes[channel] + 1] else closes
  }

  function Step(g: Gate, event: Event): Gate {
    match event
    case Enter(ticket) =>
      if g.closed then g
      else
        var busy := if g.active == 0 then g.(drained := |g.closes|, closes := g.closes + [0]) else g;
        busy.(active := g.active + 1, inside := g.inside + {ticket})
    case Leave(ticket) =>
      var left := g.(active := g.active - 1, inside := g.inside - {ticket});
      if left.active == 0 then left.(closes := Close(g.closes, g.drained)) else left
    case Freeze(id) =>
      if g.closed then g.(freezers := g.freezers[id := LetGo])
      else if g.active == 0 then
        g.(closed := true, closes := g.closes + [1], freezers := g.freezers[id := Waiting(|g.closes|)])
      else g.(closed := true, freezers := g.freezers[id := Waiting(g.drained)])
    case TimedOut(id) => g.(closed := false, freezers := g.freezers[id := LetGo])
    case Drained(id) => g.(freezers := g.freezers[id := Holding])
    case Release(id) =>
      if id in g.freezers && g.freezers[id].Holding? then g.(closed := false, freezers := g.freezers[id := LetGo])
      else g
  }

  predicate Unreleased(g: Gate, id: nat) {
    id in g.freezers && !g.freezers[id].LetGo?
  }

  /** Every channel but the one of the running busy period was closed exactly once, that one not at all. */
  predicate ChannelsValid(g: Gate) {
    && g.active == |g.inside|
    && (g.active > 0 ==> g.drained < |g.closes|)
    && (forall c :: 0 <= c < |g.closes| ==> g.closes[c] == if g.active > 0 && c == g.drained then 0 else 1)
  }

  /** At most one freeze is unreleased and it keeps the gate closed; one that holds found the gate
      empty, and one that waits watches the channel of the busy period. */
  ghost predicate FreezersValid(g: Gate) {
    && (forall id :: Unreleased(g, id) ==> g.closed)
    && (forall i, j :: Unreleased(g, i) && Unreleased(g, j) ==> i == j)
    && (forall id :: Unreleased(g, id) && g.freezers[id].Holding? ==> g.active == 0)
    && (forall id :: Unreleased(g, id) && g.freezers[id].Waiting? ==>
          && g.freezers[id].channel < |g.closes|
          && (g.active > 0 ==> g.freezers[id].channel == g.drained))
  }

  ghost predicate Valid(g: Gate) {
    ChannelsValid(g) && FreezersValid(g)
  }

  lemma OthersUnchanged(g: Gate, event: Event)
    ensures forall i :: event.Enter? || event.Leave? || i != event.id ==>
              Unreleased(g, i) == Unreleased(Step(g, event), i)
  {
  }

  lemma StepKeepsChannels(g: Gate, event: Event)
    requires ChannelsValid(g) && Enabled(g, event)
    ensures ChannelsValid(Step(g, event))
  {
  }

  lemma StepKeepsFreezers(g: Gate, event: Event)
    requires Valid(g) && Enabled(g, event)
    ensures FreezersValid(Step(g, event))
  {
    OthersUnchanged(g, event);
    if (event.TimedOut? || event.Drained? || event.Release?) && !g.freezers[event.id].LetGo? {
      assert Unreleased(g, event.id);
    }
  }

  lemma StepKeepsValid(g: Gate, event: Event)
    requires Valid(g) && Enabled(g, event)
    ensures Valid(Step(g, event))
  {
    StepKeepsChannels(g, event);
    StepKeepsFreezers(g, event);
  }

  /** A closed gate always has a freeze that can still open it again. */
  ghost predicate Owned(g: Gate) {
    g.closed ==> exists id :: Unreleased(g, id)
  }

  lemma StepKeepsOwner(g: Gate, event: Event)
    requires Valid(g) && Owned(g) && Enabled(g, event)
    ensures Owned(Step(g, event))
  {
    var next := Step(g, event);
    OthersUnchanged(g, event);
    if next.closed {
      if g.closed {
        var owner :| Unreleased(g, owner);
        assert Unreleased(next, owner);
      } else {
        assert Unreleased(next, event.id);
      }
    }
  }

  // ---- Runs ----

  function Run(g: Gate, events: seq<Event>): Gate
    decreases |events|
  {
    if events == [] then g else Run(Step(g, events[0]), events[1..])
  }

  predicate EnabledRun(g: Gate, events: seq<Event>)
    decreases |events|
  {
    events == [] || (Enabled(g, events[0]) && EnabledRun(Step(g, events[0]), events[1..]))
  }

  /** In every interleaving no drain channel is closed twice, and a busy period that has ended
      closed its channel exactly once. */
  lemma {:induction false} ChannelsCloseOnce(g: Gate, events: seq<Event>)
    requires Valid(g) && Owned(g) && EnabledRun(g, events)
    ensures var end := Run(g, events);
            && Valid(end) && Owned(end)
            && (forall c :: 0 <= c < |end.closes| ==> end.closes[c] <= 1)
            && (end.inside == {} ==> forall c :: 0 <= c < |end.closes| ==> end.closes[c] == 1)
    decreases |events|
  {
    if events != [] {
      StepKeepsValid(g, events[0]);
      StepKeepsOwner(g, events[0]);
      ChannelsCloseOnce(Step(g, events[0]), events[1..]);
    }
  }

  /** From the moment a freeze succeeds until its own release runs, whatever else happens (late
      and repeated releases of other freezes, timeouts, new freezes, attempts to enter), no
      mutation is inside, none is admitted, and the fence stays with this freeze. */
  lemma {:induction false} FreezeHoldsUntilRelease(g: Gate, events: seq<Event>, id: nat)
    requires Valid(g) && EnabledRun(g, events)
    requires id in g.freezers && g.freezers[id].Holding?
    requires Release(id) !in events
    ensures var end := Run(g, events);
            && end.inside == {} && end.active == 0 && end.closed
            && id in end.freezers && end.freezers[id].Holding?
            && (forall ticket :: Step(end, Enter(ticket)) == end)
            && (forall other :: other in end.freezers && other != id && Enabled(end, Release(other))
                                ==> Step(end, Release(other)) == end)
    decreases |events|
  {
    assert Unreleased(g, id);
    if events == [] {
      assert forall other :: other in g.freezers && other != id ==> !Unreleased(g, other);
      assert |g.inside| == 0;
    } else {
      assert events[0] != Release(id);
      if events[0].TimedOut? {
        assert Unreleased(g, events[0].id);
      }
      if events[0].Release? && events[0].id != id && Unreleased(g, events[0].id) {
        assert false;
      }
      StepKeepsValid(g, events[0]);
      FreezeHoldsUntilRelease(Step(g, events[0]), events[1..], id);
    }
  }

  /** A fence nobody contests is always obtained: once the mutations inside have left, the waiting
      freeze can be granted. */
  lemma WaitingFreezeIsGranted(g: Gate, id: nat)
    requires Valid(g) && id in g.freezers && g.freezers[id].Waiting?
    ensures Enabled(g, Drained(id)) <==> g.inside == {}
  {
  }

  // ---- The gate object ----

  class MutationGate {
    var closed: bool
    var active: int
    var drained: nat
    var closes: seq<nat>
    var inside: set<nat>
    var freezers: map<nat, Freezer>

    ghost function View(): Gate
      reads this
    {
      Gate(closed, active, drained, closes, inside, freezers)
    }

    constructor ()
      ensures View() == EMPTY && Valid(View())
    {
      closed, active, drained, closes, inside, freezers := false, 0, 0, [], {}, map[];
    }

    method TryEnter(ticket: nat) returns (admitted: bool)
      requires Valid(View()) && Enabled(View(), Enter(ticket))
      modifies this
      ensures View() == Step(old(View()), Enter(ticket)) && Valid(View())
      ensures admitted <==> !old(closed)
      ensures admitted <==> ticket in inside
    {
      StepKeepsValid(View(), Enter(ticket));
      if closed {
        return false;
      }
      if active == 0 {
        drained := |closes|;
        closes := closes + [0];
      }
      active := active + 1;
      inside := inside + {ticket};
      return true;
    }

    method LeaveOnce(ticket: nat)
      requires Valid(View()) && ticket in inside
      modifies this
      ensures View() == Step(old(View()), Leave(ticket)) && Valid(View())
    {
      StepKeepsValid(View(), Leave(ticket));
      active := active - 1;
      inside := inside - {ticket};
      if active == 0 {
        closes := closes[drained := closes[drained] + 1];
      }
    }

    method StartFreeze(id: nat) returns (started: bool)
      requires Valid(View()) && id !in freezers
      modifies this
      ensures View() == Step(old(View()), Freeze(id)) && Valid(View())
      ensures started <==> !old(closed)
    {
      StepKeepsValid(View(), Freeze(id));
      if closed {
        freezers := freezers[id := LetGo];
        return false;
      }
      closed := true;
      var channel := drained;
      if active == 0 {
        channel := |closes|;
        closes := closes + [0];
        closes := closes[channel := 1];
      }
      freezers := freezers[id := Waiting(channel)];
      return true;
    }

    /** The select: the drain channel may win only once it is closed, the context at any time. */
    method AwaitDrain(id: nat, contextDone: bool) returns (frozen: bool)
      requires Valid(View()) && id in freezers && freezers[id].Waiting?
      requires !contextDone ==> Enabled(View(), Drained(id))
      modifies this
      ensures View() == Step(old(View()), if contextDone then TimedOut(id) else Drained(id)) && Valid(View())
      ensures frozen ==> active == 0 && closed
    {
      StepKeepsValid(View(), if contextDone then TimedOut(id) else Drained(id));
      if contextDone {
        closed := false;
        freezers := freezers[id := LetGo];
        return false;
      }
      assert Unreleased(View(), id);
      freezers := freezers[id := Holding];
      return true;
    }

    method ReleaseOnce(id: nat)
      requires Valid(View()) && id in freezers && !freezers[id].Waiting?
      modifies this
      ensures View() == Step(old(View()), Release(id)) && Valid(View())
    {
      StepKeepsValid(View(), Release(id));
      if freezers[id] == Holding {
        freezers := freezers[id := LetGo];
        closed := false;
      }
    }
  }
}
