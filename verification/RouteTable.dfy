/** The tracker's table of rows and the leases taken on them, as atomic steps under its mutex. */
module RouteTable {
  import opened RouteHealth

  /** A lease remembers the route and the very row it was taken on: generations are never reused. */
  datatype Lease = Lease(ticket: nat, route: int, generation: nat)

  /** `leases` are the acquisitions whose release function has not run yet. */
  datatype Table = Table(rows: map<int, Row>, nextGen: nat, leases: set<Lease>)

  datatype Event =
    | Acquire(route: int, limit: int, ticket: nat)
    | Release(lease: Lease)
    | Verdict(rep: Report, s: Settings, now: int)
    | ClaimL2(route: int, s: Settings, now: int, legacyPiggyback: bool)
    | CompleteL2(route: int, s: Settings, completedAt: Instant, now: int, factor: real)
    | Ensure(route: int)
    | Forget(route: int)
    | RetainOnly(keep: set<int>)

  /** The row of a route, created with the next generation if it has none. */
  function Get(t: Table, route: int): Table {
    if route in t.rows then t
    else t.(rows := t.rows[route := NewRow(t.nextGen + 1)], nextGen := t.nextGen + 1)
  }

  function SetRow(t: Table, route: int, row: Row): Table {
    t.(rows := t.rows[route := row])
  }

  function Step(t: Table, event: Event): Table {
    match event
    case Acquire(route, limit, ticket) =>
      var got := Get(t, route);
      var row := got.rows[route];
      if limit > 0 && row.inFlight >= limit then got
      else SetRow(got, route, row.(inFlight := row.inFlight + 1))
           .(leases := got.leases + {Lease(ticket, route, row.generation)})
    case Release(lease) =>
      if lease !in t.leases then t
      else
        var closed := t.(leases := t.leases - {lease});
        if lease.route in t.rows && t.rows[lease.route].generation == lease.generation
           && t.rows[lease.route].inFlight > 0
        then SetRow(closed, lease.route, t.rows[lease.route].(inFlight := t.rows[lease.route].inFlight - 1))
        else closed
    case Verdict(rep, s, now) =>
      if rep.generation > 0 then
        if rep.routeID in t.rows && t.rows[rep.routeID].generation == rep.generation
        then SetRow(t, rep.routeID, ReportRow(t.rows[rep.routeID], rep, s, now).0) else t
      else
        var got := Get(t, rep.routeID);
        SetRow(got, rep.routeID, ReportRow(got.rows[rep.routeID], rep, s, now).0)
    case ClaimL2(route, s, now, legacyPiggyback) =>
      var got := Get(t, route);
      SetRow(got, route, ClaimRow(got.rows[route], s, now, legacyPiggyback).0)
    case CompleteL2(route, s, completedAt, now, factor) =>
      var got := Get(t, route);
      SetRow(got, route, CompleteRow(got.rows[route], s, completedAt, now, factor))
    case Ensure(route) => Get(t, route)
    case Forget(route) => t.(rows := t.rows - {route})
    case RetainOnly(keep) => t.(rows := map id | id in t.rows && id in keep :: t.rows[id])
  }

  predicate Fresh(t: Table, event: Event) {
    event.Acquire? ==> forall l :: l in t.leases ==> l.ticket != event.ticket
  }

  /** The unreleased acquisitions made on the row that a route has now. */
  function HeldOn(leases: set<Lease>, route: int, generation: nat): set<Lease> {
    set l | l in leases && l.route == route && l.generation == generation
  }

  predicate Valid(t: Table) {
    && (forall id :: id in t.rows ==> 0 < t.rows[id].generation <= t.nextGen)
    && (forall i, j :: i in t.rows && j in t.rows && t.rows[i].generation == t.rows[j].generation ==> i == j)
    && (forall l :: l in t.leases ==> l.generation <= t.nextGen)
    && (forall id :: id in t.rows ==> t.rows[id].inFlight == |HeldOn(t.leases, id, t.rows[id].generation)|)
  }

  lemma GetKeepsValid(t: Table, route: int)
    requires Valid(t)
    ensures Valid(Get(t, route)) && route in Get(t, route).rows && Get(t, route).leases == t.leases
    ensures forall id :: id in t.rows ==> id in Get(t, route).rows && Get(t, route).rows[id] == t.rows[id]
  {
  }

  /** Replacing a row by one with the same generation and count disturbs nothing. */
  lemma SetRowKeepsValid(t: Table, route: int, row: Row)
    requires Valid(t) && route in t.rows
    requires row.generation == t.rows[route].generation && row.inFlight == t.rows[route].inFlight
    ensures Valid(SetRow(t, route, row))
  {
  }

  lemma HeldOnAdd(leases: set<Lease>, lease: Lease, route: int, generation: nat)
    requires lease !in leases
    ensures |HeldOn(leases + {lease}, route, generation)|
            == |HeldOn(leases, route, generation)|
               + if lease.route == route && lease.generation == generation then 1 else 0
  {
    var before, after := HeldOn(leases, route, generation), HeldOn(leases + {lease}, route, generation);
    assert after == if lease.route == route && lease.generation == generation then before + {lease} else before;
  }

  lemma HeldOnRemove(leases: set<Lease>, lease: Lease, route: int, generation: nat)
    requires lease in leases
    ensures |HeldOn(leases - {lease}, route, generation)|
            == |HeldOn(leases, route, generation)|
               - if lease.route == route && lease.generation == generation then 1 else 0
  {
    assert leases - {lease} + {lease} == leases;
    HeldOnAdd(leases - {lease}, lease, route, generation);
  }

  lemma AcquireKeepsValid(t: Table, event: Event)
    requires Valid(t) && Fresh(t, event) && event.Acquire?
    ensures Valid(Step(t, event))
  {
    GetKeepsValid(t, event.route);
    var got, next := Get(t, event.route), Step(t, event);
    if next.leases != got.leases {
      var lease := Lease(event.ticket, event.route, got.rows[event.route].generation);
      assert lease !in got.leases && next.leases == got.leases + {lease};
      forall id | id in next.rows
        ensures next.rows[id].inFlight == |HeldOn(next.leases, id, next.rows[id].generation)|
      {
        HeldOnAdd(got.leases, lease, id, got.rows[id].generation);
      }
    }
  }

  lemma ReleaseKeepsValid(t: Table, lease: Lease)
    requires Valid(t)
    ensures Valid(Step(t, Release(lease)))
  {
    var next := Step(t, Release(lease));
    if lease in t.leases {
      forall id | id in next.rows
        ensures next.rows[id].inFlight == |HeldOn(next.leases, id, next.rows[id].generation)|
      {
        HeldOnRemove(t.leases, lease, id, t.rows[id].generation);
      }
    }
  }

  lemma VerdictKeepsValid(t: Table, event: Event)
    requires Valid(t) && event.Verdict?
    ensures Valid(Step(t, event))
  {
    var rep := event.rep;
    if rep.generation == 0 {
      GetKeepsValid(t, rep.routeID);
      var found := Get(t, rep.routeID);
      SetRowKeepsValid(found, rep.routeID, ReportRow(found.rows[rep.routeID], rep, event.s, event.now).0);
    } else if rep.routeID in t.rows {
      SetRowKeepsValid(t, rep.routeID, ReportRow(t.rows[rep.routeID], rep, event.s, event.now).0);
    }
  }

  lemma StepKeepsValid(t: Table, event: Event)
    requires Valid(t) && Fresh(t, event)
    ensures Valid(Step(t, event))
  {
    match event {
      case Acquire(_, _, _) => AcquireKeepsValid(t, event);
      case Release(lease) => ReleaseKeepsValid(t, lease);
      case Verdict(_, _, _) => VerdictKeepsValid(t, event);
      case ClaimL2(route, s, now, legacyPiggyback) =>
        GetKeepsValid(t, route);
        SetRowKeepsValid(Get(t, route), route, ClaimRow(Get(t, route).rows[route], s, now, legacyPiggyback).0);
      case CompleteL2(route, s, completedAt, now, factor) =>
        GetKeepsValid(t, route);
        SetRowKeepsValid(Get(t, route), route, CompleteRow(Get(t, route).rows[route], s, completedAt, now, factor));
      case Ensure(route) => GetKeepsValid(t, route);
      case Forget(_) =>
      case RetainOnly(_) =>
    }
  }

  function Run(t: Table, events: seq<Event>): Table
    decreases |events|
  {
    if events == [] then t else Run(Step(t, events[0]), events[1..])
  }

  predicate FreshRun(t: Table, events: seq<Event>)
    decreases |events|
  {
    events == [] || (Fresh(t, events[0]) && FreshRun(Step(t, events[0]), events[1..]))
  }

  /** In every interleaving each live row's count is the number of unreleased acquisitions made on
      that very row, whatever was forgotten and created again in between. */
  lemma {:induction false} CountsAreExact(t: Table, events: seq<Event>)
    requires Valid(t) && FreshRun(t, events)
    ensures var end := Run(t, events);
            && Valid(end)
            && (forall id :: id in end.rows ==>
                  end.rows[id].inFlight == |HeldOn(end.leases, id, end.rows[id].generation)|)
    decreases |events|
  {
    if events != [] {
      StepKeepsValid(t, events[0]);
      CountsAreExact(Step(t, events[0]), events[1..]);
    }
  }

  /** An acquisition succeeds exactly when the route is under its limit, counting only unreleased
      acquisitions on its present row, and then the row is within the limit. */
  lemma AcquisitionRespectsLimit(t: Table, route: int, limit: int, ticket: nat)
    requires Valid(t) && Fresh(t, Acquire(route, limit, ticket))
    ensures var next := Step(t, Acquire(route, limit, ticket));
            var held := if route in t.rows then |HeldOn(t.leases, route, t.rows[route].generation)| else 0;
            && (next.leases != t.leases <==> limit <= 0 || held < limit)
            && (next.leases != t.leases && limit > 0 ==>
                  next.rows[route].inFlight == |HeldOn(next.leases, route, next.rows[route].generation)| <= limit)
  {
    GetKeepsValid(t, route);
    AcquireKeepsValid(t, Acquire(route, limit, ticket));
    var got := Get(t, route);
    var lease := Lease(ticket, route, got.rows[route].generation);
    assert lease !in t.leases;
    if route !in t.rows {
      assert HeldOn(t.leases, route, t.nextGen + 1) == {};
    }
  }

  /** A release or a bound verdict that belongs to a row the route no longer has. */
  predicate Stale(t: Table, event: Event) {
    match event
    case Release(l) => !(l.route in t.rows && t.rows[l.route].generation == l.generation)
    case Verdict(rep, _, _) =>
      rep.generation > 0 && !(rep.routeID in t.rows && t.rows[rep.routeID].generation == rep.generation)
    case Acquire(_, _, _) => false
    case ClaimL2(_, _, _, _) => false
    case CompleteL2(_, _, _, _, _) => false
    case Ensure(_) => false
    case Forget(_) => false
    case RetainOnly(_) => false
  }

  /** The rest of a run is the same with a stale event and without it: same rows, same generations
      to come, and leases that differ only in the one released. */
  lemma {:induction false} StaleEventsLeaveNoTrace(t: Table, stale: Event, events: seq<Event>)
    requires Valid(t) && Stale(t, stale)
    requires FreshRun(t, events)
    requires stale.Release? ==> Release(stale.lease) !in events
    ensures var with, without := Run(Step(t, stale), events), Run(t, events);
            with.rows == without.rows && with.nextGen == without.nextGen
  {
    if stale.Release? && stale.lease in t.leases {
      RunsAgree(Step(t, stale), t, stale.lease, events);
    }
  }

  lemma {:induction false} RunsAgree(a: Table, b: Table, gone: Lease, events: seq<Event>)
    requires a.rows == b.rows && a.nextGen == b.nextGen && gone in b.leases && a.leases == b.leases - {gone}
    requires FreshRun(b, events) && Release(gone) !in events
    ensures Run(a, events).rows == Run(b, events).rows && Run(a, events).nextGen == Run(b, events).nextGen
    decreases |events|
  {
    if events != [] {
      assert events[0] != Release(gone);
      RunsAgree(Step(a, events[0]), Step(b, events[0]), gone, events[1..]);
    }
  }

  /** Forgetting a route makes everything bound to its row stale for good: generations only grow,
      so no later row of any route can be hit by it. */
  lemma {:induction false} ForgottenStaysStale(t: Table, route: int, event: Event, events: seq<Event>)
    requires Valid(t) && FreshRun(Step(t, Forget(route)), events)
    requires route in t.rows
    requires (event.Release? && event.lease.route == route && event.lease.generation == t.rows[route].generation)
             || (event.Verdict? && event.rep.routeID == route && event.rep.generation == t.rows[route].generation)
    ensures var later := Run(Step(t, Forget(route)), events);
            Stale(later, event) && Step(later, event).rows == later.rows
  {
    StepKeepsValid(t, Forget(route));
    GenerationStaysGone(Step(t, Forget(route)), t.rows[route].generation, events);
  }

  predicate Gone(t: Table, generation: nat) {
    generation <= t.nextGen && forall id :: id in t.rows ==> t.rows[id].generation != generation
  }

  lemma {:induction false} GenerationStaysGone(t: Table, generation: nat, events: seq<Event>)
    requires Gone(t, generation)
    ensures Gone(Run(t, events), generation)
    decreases |events|
  {
    if events != [] {
      assert Gone(Step(t, events[0]), generation);
      GenerationStaysGone(Step(t, events[0]), generation, events[1..]);
    }
  }
}
