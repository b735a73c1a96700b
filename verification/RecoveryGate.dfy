/** The per-route recovery lock: at most one half-open attempt, released by token. */
module RecoveryGate {

  /** `held` maps a route to the token that holds it, `last` is the newest token. A release closure
      is identified by its route and token, and runs at most once. */
  datatype Gate = Gate(held: map<int, nat>, last: nat)
  datatype Closure = Closure(route: int, token: nat)

  datatype Event = TryAcquire(route: int) | Release(closure: Closure) | Forget(route: int) | Reset

  const EMPTY := Gate(map[], 0)

  function Step(g: Gate, event: Event): Gate {
    match event
    case TryAcquire(route) => if route in g.held then g else Gate(g.held[route := g.last + 1], g.last + 1)
    case Release(c) => if c.route in g.held && g.held[c.route] == c.token then g.(held := g.held - {c.route}) else g
    case Forget(route) => g.(held := g.held - {route})
    case Reset => g.(held := map[])
  }

  function Run(g: Gate, events: seq<Event>): Gate
    decreases |events|
  {
    if events == [] then g else Run(Step(g, events[0]), events[1..])
  }

  /** Tokens start at one, never exceed the newest, and no two routes share one. */
  predicate Valid(g: Gate) {
    && (forall r :: r in g.held ==> 0 < g.held[r] <= g.last)
    && (forall r, q :: r in g.held && q in g.held && g.held[r] == g.held[q] ==> r == q)
  }

  lemma StepKeepsValid(g: Gate, event: Event)
    requires Valid(g)
    ensures Valid(Step(g, event)) && g.last <= Step(g, event).last
  {
  }

  predicate Ends(event: Event, c: Closure) {
    event == Release(c) || event == Forget(c.route) || event == Reset
  }

  /** Single flight over any interleaving: from a successful acquisition until its own release, or
      a forget or reset of its route, the route stays with it and every other attempt is refused,
      however many releases of other or earlier acquisitions run meanwhile. */
  lemma {:induction false} AcquisitionHoldsAlone(g: Gate, c: Closure, events: seq<Event>)
    requires Valid(g) && c.route in g.held && g.held[c.route] == c.token
    requires forall i :: 0 <= i < |events| ==> !Ends(events[i], c)
    ensures var end := Run(g, events);
            && Valid(end)
            && c.route in end.held && end.held[c.route] == c.token
            && Step(end, TryAcquire(c.route)) == end
    decreases |events|
  {
    if events != [] {
      StepKeepsValid(g, events[0]);
      assert !Ends(events[0], c);
      AcquisitionHoldsAlone(Step(g, events[0]), c, events[1..]);
    }
  }

  /** Once an acquisition has ended (released, forgotten or reset), its closure never again changes
      anything, even after the same route was acquired anew. */
  lemma {:induction false} EndedClosureIsInert(g: Gate, c: Closure, ending: Event, events: seq<Event>)
    requires Valid(g) && c.route in g.held && g.held[c.route] == c.token && Ends(ending, c)
    ensures var later := Run(Step(g, ending), events); Step(later, Release(c)) == later
  {
    StepKeepsValid(g, ending);
    TokenStaysGone(Step(g, ending), c, events);
  }

  lemma {:induction false} TokenStaysGone(g: Gate, c: Closure, events: seq<Event>)
    requires c.token <= g.last && !(c.route in g.held && g.held[c.route] == c.token)
    ensures var later := Run(g, events);
            c.token <= later.last && !(c.route in later.held && later.held[c.route] == c.token)
    decreases |events|
  {
    if events != [] {
      TokenStaysGone(Step(g, events[0]), c, events[1..]);
    }
  }

  class RecoveryLock {
    var held: map<int, nat>
    var last: nat

    ghost function View(): Gate
      reads this
    {
      Gate(held, last)
    }

    constructor ()
      ensures View() == EMPTY
    {
      held, last := map[], 0;
    }

    method TryAcquireSlot(route: int) returns (ok: bool, closure: Closure)
      requires Valid(View())
      modifies this
      ensures View() == Step(old(View()), TryAcquire(route)) && Valid(View())
      ensures ok <==> route !in old(held)
      ensures ok ==> closure.route == route && held[route] == closure.token
    {
      StepKeepsValid(View(), TryAcquire(route));
      if route in held {
        return false, Closure(route, 0);
      }
      last := last + 1;
      held := held[route := last];
      return true, Closure(route, last);
    }

    method ReleaseSlot(closure: Closure)
      modifies this
      ensures View() == Step(old(View()), Release(closure))
    {
      if closure.route in held && held[closure.route] == closure.token {
        held := held - {closure.route};
      }
    }

    method ForgetRoute(route: int)
      modifies this
      ensures View() == Step(old(View()), Forget(route))
    {
      held := held - {route};
    }

    method ResetAll()
      modifies this
      ensures View() == Step(old(View()), Reset)
    {
      held := map[];
    }
  }
}
