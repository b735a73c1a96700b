/** The in-memory registry of endpoint capabilities: committed rows applied out of order, guarded by
    the route's generation, against invalidation. */
module CapabilityCache {
  import opened CommittedRows
  import Routes = RouteTable

  datatype Scope = UpstreamScope | RouteScope
  datatype Key = Key(scope: Scope, id: int, endpoint: string)
  datatype Capability = Capability(state: string, expiresAt: int)
  type Entry = Row<Capability>

  const ENDPOINTS := {"models", "messages", "responses", "chat_completions", "count_tokens"}

  /** The generation captured before the SQL commit, if a route was involved. */
  datatype Guard = Unguarded | Captured(generation: nat)

  /** `watched` says whether a route tracker is wired in. */
  datatype Registry = Registry(rows: map<Key, Entry>, watched: bool, table: Routes.Table)

  datatype Event =
    | Commit(key: Key, row: Entry, guard: Guard)
    | Invalidate(key: Key)
    | InvalidateScope(scope: Scope, id: int)
    | InvalidateStale(keep: set<string>)
    | DemotePositive(now: int)
    | InvalidateAll
    | RouteEvent(event: Routes.Event)

  function GenerationOf(table: Routes.Table, route: int): nat {
    if route in table.rows then table.rows[route].generation else 0
  }

  /** Whether the registry looks at the row at all. */
  predicate Passes(r: Registry, key: Key, guard: Guard) {
    && key.id > 0 && key.endpoint in ENDPOINTS
    && (guard.Captured? && key.scope.RouteScope? && r.watched ==> GenerationOf(r.table, key.id) == guard.generation)
  }

  function CellAt(rows: map<Key, Entry>, key: Key): Cell<Capability> {
    if key in rows then Holds(rows[key]) else Empty
  }

  predicate Expired(row: Entry, now: int) {
    row.content.expiresAt > 0 && now >= row.content.expiresAt
  }

  predicate Kept(event: Event, key: Key, row: Entry) {
    match event
    case Invalidate(k) => key != k
    case InvalidateScope(scope, id) => !(key.scope == scope && key.id == id)
    case InvalidateStale(keep) => row.token in keep
    case DemotePositive(now) => row.content.state != "supported" || Expired(row, now)
    case InvalidateAll => false
    case Commit(_, _, _) => true
    case RouteEvent(_) => true
  }

  function Remaining(rows: map<Key, Entry>, event: Event): map<Key, Entry> {
    map k | k in rows && Kept(event, k, rows[k]) :: rows[k]
  }

  function Put(rows: map<Key, Entry>, key: Key, row: Entry): map<Key, Entry> {
    rows[key := Admit(CellAt(rows, key), row).row]
  }

  function Step(r: Registry, event: Event): Registry {
    match event
    case Commit(key, row, guard) => if Passes(r, key, guard) then r.(rows := Put(r.rows, key, row)) else r
    case RouteEvent(e) => r.(table := Routes.Step(r.table, e))
    case Invalidate(_) => r.(rows := Remaining(r.rows, event))
    case InvalidateScope(_, _) => r.(rows := Remaining(r.rows, event))
    case InvalidateStale(_) => r.(rows := Remaining(r.rows, event))
    case DemotePositive(_) => r.(rows := Remaining(r.rows, event))
    case InvalidateAll => r.(rows := Remaining(r.rows, event))
  }

  function Run(r: Registry, events: seq<Event>): Registry
    decreases |events|
  {
    if events == [] then r else Step(Run(r, events[..|events| - 1]), events[|events| - 1])
  }

  /** The rows that got past the guards for this key, in order of arrival. */
  function Arrivals(r: Registry, events: seq<Event>, key: Key): seq<Entry>
    decreases |events|
  {
    if events == [] then []
    else
      var prefix, event := events[..|events| - 1], events[|events| - 1];
      var earlier := Arrivals(r, prefix, key);
      if event.Commit? && event.key == key && Passes(Run(r, prefix), key, event.guard)
      then earlier + [event.row] else earlier
  }

  /** Commits for other keys, their invalidation and any route traffic leave a key's cell alone. */
  predicate LeavesKey(event: Event, key: Key) {
    match event
    case Commit(_, _, _) => true
    case RouteEvent(_) => true
    case Invalidate(k) => k != key
    case InvalidateScope(scope, id) => !(key.scope == scope && key.id == id)
    case InvalidateStale(_) => false
    case DemotePositive(_) => false
    case InvalidateAll => false
  }

  lemma StepAtKey(r: Registry, event: Event, key: Key)
    requires LeavesKey(event, key)
    ensures CellAt(Step(r, event).rows, key)
            == if event.Commit? && event.key == key && Passes(r, key, event.guard)
               then Admit(CellAt(r.rows, key), event.row) else CellAt(r.rows, key)
  {
  }

  lemma {:induction false} CellCollectsArrivals(r: Registry, events: seq<Event>, key: Key)
    requires forall i :: 0 <= i < |events| ==> LeavesKey(events[i], key)
    ensures CellAt(Run(r, events).rows, key) == AdmitAll(CellAt(r.rows, key), Arrivals(r, events, key))
    decreases |events|
  {
    if events != [] {
      var prefix, event := events[..|events| - 1], events[|events| - 1];
      CellCollectsArrivals(r, prefix, key);
      StepAtKey(Run(r, prefix), event, key);
      if event.Commit? {
        AdmitOneMore(CellAt(r.rows, key), Arrivals(r, prefix, key), event.row);
      }
    }
  }

  /** In the whole registry, with other keys changing freely: commits of one token for a key, in any
      arrival order, repeated, and with placeholders between, leave the highest-order row there. */
  lemma CommitsSettleOnHighest(r: Registry, events: seq<Event>, key: Key, like: Entry, top: Entry)
    requires key !in r.rows
    requires forall i :: 0 <= i < |events| ==> LeavesKey(events[i], key)
    requires OneIdentity(Arrivals(r, events, key), like) && HighestIs(Arrivals(r, events, key), like, top)
    ensures key in Run(r, events).rows && Run(r, events).rows[key] == top
  {
    CellCollectsArrivals(r, events, key);
    HighestOrderSurvives(Empty, Arrivals(r, events, key), like, top);
  }

  // ---- Resetting a route against commits still on their way ----

  predicate Holding(r: Registry, route: int, rows: set<Entry>) {
    exists k :: k in r.rows && k.scope.RouteScope? && k.id == route && r.rows[k] in rows
  }

  /** These rows only ever arrive for the route under this captured generation. */
  predicate BoundTo(events: seq<Event>, route: int, rows: set<Entry>, generation: nat) {
    forall i :: 0 <= i < |events| ==>
      events[i].Commit? && events[i].key.scope.RouteScope? && events[i].key.id == route && events[i].row in rows ==>
        events[i].guard == Captured(generation)
  }

  lemma {:induction false} GoneGenerationBringsNothing(r: Registry, events: seq<Event>, route: int,
                                                       rows: set<Entry>, generation: nat)
    requires r.watched && generation > 0 && Routes.Gone(r.table, generation)
    requires BoundTo(events, route, rows, generation)
    ensures Run(r, events).watched && Routes.Gone(Run(r, events).table, generation)
    ensures !Holding(r, route, rows) ==> !Holding(Run(r, events), route, rows)
    decreases |events|
  {
    if events != [] {
      var prefix, event := events[..|events| - 1], events[|events| - 1];
      assert forall i :: 0 <= i < |prefix| ==> prefix[i] == events[i];
      GoneGenerationBringsNothing(r, prefix, route, rows, generation);
      var before := Run(r, prefix);
      if event.RouteEvent? {
        Routes.GenerationStaysGone(before.table, generation, [event.event]);
        assert Routes.Run(Routes.Step(before.table, event.event), []) == Routes.Step(before.table, event.event);
        assert [event.event][1..] == [];
      }
    }
  }

  /** A reset forgets the route and then drops its rows. However the commits captured under the old
      generation fall (before the forget, between the two, or after), none is left once it is done. */
  lemma ResetOutlastsLateCommits(r: Registry, middle: seq<Event>, after: seq<Event>, route: int, rows: set<Entry>)
    requires r.watched && Routes.Valid(r.table) && GenerationOf(r.table, route) > 0
    requires BoundTo(middle, route, rows, GenerationOf(r.table, route))
    requires BoundTo(after, route, rows, GenerationOf(r.table, route))
    ensures var forgotten := Run(Step(r, RouteEvent(Routes.Forget(route))), middle);
            !Holding(Run(Step(forgotten, InvalidateScope(RouteScope, route)), after), route, rows)
  {
    var generation := GenerationOf(r.table, route);
    var forgotten := Step(r, RouteEvent(Routes.Forget(route)));
    assert Routes.Gone(forgotten.table, generation);
    GoneGenerationBringsNothing(forgotten, middle, route, rows, generation);
    var dropped := Step(Run(forgotten, middle), InvalidateScope(RouteScope, route));
    assert !Holding(dropped, route, rows);
    GoneGenerationBringsNothing(dropped, after, route, rows, generation);
  }

  /** Only a commit captured while the route had no row (generation 0) escapes: after the route came
      to life and was reset, generation 0 is back and the old row enters. */
  lemma UnboundCommitSurvivesReset(r: Registry, key: Key, row: Entry)
    requires r.watched && key.scope.RouteScope? && key.id > 0 && key.endpoint in ENDPOINTS
    requires key.id !in r.table.rows
    ensures var events := [RouteEvent(Routes.Ensure(key.id)), RouteEvent(Routes.Forget(key.id)),
                           InvalidateScope(RouteScope, key.id), Commit(key, row, Captured(0))];
            var end := Run(r, events);
            GenerationOf(Run(r, events[..1]).table, key.id) > 0 && key in end.rows && end.rows[key] == row
  {
    var events := [RouteEvent(Routes.Ensure(key.id)), RouteEvent(Routes.Forget(key.id)),
                   InvalidateScope(RouteScope, key.id), Commit(key, row, Captured(0))];
    assert events[..3][..2] == events[..2] && events[..2][..1] == events[..1] && events[..1][..0] == [];
    var r1 := Step(r, events[0]);
    assert Run(r, events[..1]) == r1;
    var r2 := Step(r1, events[1]);
    assert Run(r, events[..2]) == r2;
    assert Run(r, events[..3]) == Step(r2, events[2]);
  }

  // ---- The registry object ----

  class CapabilityRegistry {
    var rows: map<Key, Entry>

    constructor ()
      ensures rows == map[]
    {
      rows := map[];
    }

    /** `live` is what the tracker answers for the route while the lock is held. */
    method ApplyCommitted(key: Key, row: Entry, guard: Guard, watched: bool, live: nat)
      modifies this
      ensures forall table :: GenerationOf(table, key.id) == live ==>
                rows == Step(Registry(old(rows), watched, table), Commit(key, row, guard)).rows
    {
      if key.id <= 0 || key.endpoint !in ENDPOINTS {
        return;
      }
      if guard.Captured? && key.scope.RouteScope? && watched {
        var current := if guard.generation == 0 then live == 0 else live == guard.generation;
        if !current {
          return;
        }
      }
      if key in rows && rows[key].token != "" && row.token == "" {
        assert rows == rows[key := rows[key]];
        return;
      }
      if key in rows && Same(rows[key], row) && rows[key].order >= row.order {
        assert rows == rows[key := rows[key]];
        return;
      }
      rows := rows[key := row];
    }

    /** The loops of the four sweeping invalidations differ only in what they keep. */
    method Sweep(event: Event)
      modifies this
      ensures rows == Remaining(old(rows), event)
    {
      var keys := rows.Keys;
      while exists k :: k in keys
        invariant keys <= old(rows).Keys
        invariant forall k :: k in rows <==> k in old(rows) && (k in keys || Kept(event, k, old(rows)[k]))
        invariant forall k :: k in rows ==> rows[k] == old(rows)[k]
        decreases |keys|
      {
        var key :| key in keys;
        keys := keys - {key};
        if !Kept(event, key, rows[key]) {
          rows := rows - {key};
        }
      }
    }

    method InvalidateAfterCalibration(route: int, upstream: int, endpoint: string)
      modifies this
      ensures forall k :: k in rows <==>
                && k in old(rows)
                && !(route > 0 && k == Key(RouteScope, route, endpoint))
                && !(upstream > 0 && k == Key(UpstreamScope, upstream, endpoint))
      ensures forall k :: k in rows ==> rows[k] == old(rows)[k]
    {
      if route > 0 {
        rows := rows - {Key(RouteScope, route, endpoint)};
      }
      if upstream > 0 {
        rows := rows - {Key(UpstreamScope, upstream, endpoint)};
      }
    }

    /** `fingerprintCurrent` is the comparison of the row's policy fingerprint with current settings. */
    method Effective(key: Key, expectedToken: string, fingerprintCurrent: Entry -> bool, now: int)
      returns (state: string)
      ensures state != "unknown" ==>
                && key in rows && state == rows[key].content.state
                && (expectedToken == "" || rows[key].token == expectedToken)
                && fingerprintCurrent(rows[key]) && !Expired(rows[key], now)
      ensures key in rows && (expectedToken == "" || rows[key].token == expectedToken) ==>
                fingerprintCurrent(rows[key]) && !Expired(rows[key], now) ==> state == rows[key].content.state
    {
      if key !in rows {
        return "unknown";
      }
      var row := rows[key];
      if expectedToken != "" && row.token != expectedToken {
        return "unknown";
      }
      if !fingerprintCurrent(row) {
        return "unknown";
      }
      if row.content.expiresAt > 0 && !(now < row.content.expiresAt) {
        return "unknown";
      }
      return row.content.state;
    }
  }
}
