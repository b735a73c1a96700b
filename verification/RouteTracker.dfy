/** The tracker object: rows are shared mutable objects, and a release compares object identity. */
module RouteTracker {
  import opened RouteHealth
  import Table = RouteTable

  /** A row shared by the table and by the release closures: its identity is the object, its fields
      are kept as one record that every operation updates in place. */
  class RouteState {
    const generation: nat
    var row: Row

    constructor (generation: nat)
      ensures this.generation == generation && row == NewRow(generation)
    {
      this.generation := generation;
      row := NewRow(generation);
    }

    method ApplyOK(rep: Report, s: Settings, now: int)
      requires rep.verdict.OK?
      modifies this
      ensures row == ApplyVerdict(old(row), rep, s, now)
    {
      row := row.(failRun := 0);
      row := row.(okRun := row.okRun + 1);
      row := row.(lastOKAt := At(now), lastError := "", lastReason := OK);
      row := row.(cooldownUntil := Never);
      if rep.ttft > 0 {
        row := row.(lastTTFT := rep.ttft);
      }
      if rep.source == RealTraffic {
        row := row.(lastRealOKAt := At(now));
      }
      if row.state == Dead && !rep.halfOpen {
      } else if row.state == Dead && rep.source == RealTraffic {
        row := row.(state := Alive);
      } else if row.state == Dead {
        row := row.(state := Recovering);
      } else if row.state == Recovering && rep.source == RealTraffic {
        row := row.(state := Alive);
      } else if row.state == Recovering && row.okRun >= s.okThreshold {
        row := row.(state := Alive);
      } else if row.state == Unknown && rep.source == RealTraffic {
        row := row.(state := Alive);
      } else if row.state == Unknown && row.okRun >= s.okThreshold {
        row := row.(state := Alive);
      } else if row.okRun >= s.okThreshold && row.state != Recovering {
        row := row.(state := Alive);
      }
    }

    method Apply(rep: Report, s: Settings, now: int) returns (changed: bool)
      modifies this
      ensures (row, changed) == ReportRow(old(row), rep, s, now)
    {
      var initialState := row.state;
      if rep.verdict != Ignore && rep.identity.Bound? && row.identity.Identity? && row.identity.policy != PolicyOf(s) {
        row := NewRow(row.generation).(inFlight := row.inFlight, nextL1At := row.nextL1At, nextL2At := row.nextL2At);
      }
      var before := row.state;
      match rep.verdict {
        case Ignore => return false;
        case OK => ApplyOK(rep, s, now);
        case Fatal =>
          row := row.(okRun := 0);
          row := row.(failRun := row.failRun + 1);
          row := row.(state := Dead);
          row := NoteErr(row, rep, now);
        case Unavailable =>
          row := row.(okRun := 0);
          row := row.(failRun := row.failRun + 1);
          if row.failRun >= s.failThreshold {
            row := row.(state := Dead);
          }
          row := NoteErr(row, rep, now);
        case RateLimited =>
          row := row.(failRun := 0);
          var d := rep.retryAfter;
          if d <= 0 {
            d := s.cooldownSec * SECOND;
          }
          row := row.(cooldownUntil := At(now + d));
          row := NoteErr(row, rep, now);
      }
      if row.state != Dead {
        row := row.(deadSince := Never);
      } else if before != Dead {
        row := row.(deadSince := At(now));
      }
      row := row.(identity := if rep.identity.Bound? then Identity(rep.identity.config, PolicyOf(s)) else NoIdentity);
      row := row.(recoverySource := "");
      return row.state != initialState;
    }
  }

  method IntervalL2(rs: RouteState, s: Settings, now: Instant) returns (l2: int)
    ensures l2 == L2Interval(rs.row, s, now)
  {
    match rs.row.state {
      case Alive => return AliveL2Interval(s);
      case Unknown => return 0;
      case Recovering => return 0;
      case Dead =>
        if rs.row.deadSince == Never {
          l2 := s.l2DeadSec * SECOND;
          if l2 <= 0 {
            l2 := DEAD_L2_SHORT;
          }
          return;
        }
        if now == Never || now.t - rs.row.deadSince.t <= SHORT_DEAD_WINDOW {
          return DEAD_L2_SHORT;
        }
        return if now.t - rs.row.deadSince.t <= MID_DEAD_WINDOW then DEAD_L2_MID else DEAD_L2_LONG;
    }
  }

  /** Due or not: the claim on the row object itself. */
  method ClaimOn(rs: RouteState, s: Settings, now: int, legacyPiggyback: bool) returns (generation: nat, ok: bool)
    modifies rs
    ensures (rs.row, ok) == ClaimRow(old(rs.row), s, now, legacyPiggyback)
    ensures ok ==> generation == rs.generation
  {
    if rs.row.nextL2At.At? && now < rs.row.nextL2At.t {
      return 0, false;
    }
    if rs.row.cooldownUntil.At? && now < rs.row.cooldownUntil.t {
      return 0, false;
    }
    var l2 := IntervalL2(rs, s, At(now));
    if legacyPiggyback && s.piggyback && rs.row.state != Dead && rs.row.lastRealOKAt.At? {
      if now - rs.row.lastRealOKAt.t < l2 {
        rs.row := rs.row.(nextL2At := At(rs.row.lastRealOKAt.t + l2));
        return 0, false;
      }
    }
    rs.row := rs.row.(nextL2At := At(now + l2));
    return rs.generation, true;
  }

  method CompleteOn(rs: RouteState, s: Settings, completedAt: Instant, now: int, factor: real)
    modifies rs
    ensures rs.row == CompleteRow(old(rs.row), s, completedAt, now, factor)
  {
    var l2 := IntervalL2(rs, s, completedAt);
    var at := completedAt;
    if at == Never {
      at := At(now);
    }
    rs.row := rs.row.(nextL2At := At(at.t + ApplyJitter(l2, factor)));
  }

  /** The release closure of one acquisition: it runs at most once. */
  class ReleaseHandle {
    const routeID: int
    const held: RouteState
    ghost const ticket: nat
    var done: bool

    constructor (routeID: int, held: RouteState, ghost ticket: nat)
      ensures this.routeID == routeID && this.held == held && this.ticket == ticket && !done
    {
      this.routeID, this.held, this.ticket, done := routeID, held, ticket, false;
    }

    ghost function Lease(): Table.Lease {
      Table.Lease(ticket, routeID, held.generation)
    }
  }

  class Tracker {
    var state: map<int, RouteState>
    var nextGen: nat

    /** The abstract table this tracker implements, and the handle of each lease not yet released. */
    ghost var table: Table.Table
    ghost var handles: map<Table.Lease, ReleaseHandle>
    ghost var nextTicket: nat

    /** Pointwise agreement of the objects with the abstract table, but for the content of some rows.
        Equal generations mean the same row object. */
    ghost predicate ValidBut(routes: set<int>)
      reads this, state.Values, handles.Values
    {
      && nextGen == table.nextGen
      && (forall id :: id in state <==> id in table.rows)
      && (forall id :: id in state ==>
            && (id !in routes ==> state[id].row == table.rows[id])
            && state[id].row.generation == state[id].generation <= nextGen)
      && (forall i, j :: i in state && j in state && state[i].generation == state[j].generation ==> i == j)
      && handles.Keys == table.leases
      && (forall l :: l in handles ==>
            handles[l].Lease() == l && !handles[l].done && l.ticket < nextTicket && l.generation <= nextGen)
      && (forall l, id :: l in handles && id in state && l.generation == state[id].generation ==>
            handles[l].held == state[id])
    }

    ghost predicate Valid()
      reads this, state.Values, handles.Values
    {
      ValidBut({})
    }

    constructor ()
      ensures Valid() && table == Table.Table(map[], 0, {})
    {
      state, nextGen := map[], 0;
      table, handles, nextTicket := Table.Table(map[], 0, {}), map[], 0;
    }

    method Get(routeID: int) returns (rs: RouteState)
      requires Valid()
      modifies this
      ensures Valid() && table == Table.Get(old(table), routeID)
      ensures routeID in state && rs == state[routeID]
      ensures if routeID in old(state) then state == old(state) else fresh(rs) && state == old(state)[routeID := rs]
      ensures handles == old(handles) && nextTicket == old(nextTicket)
    {
      if routeID in state {
        return state[routeID];
      }
      nextGen := nextGen + 1;
      rs := new RouteState(nextGen);
      state := state[routeID := rs];
      table := Table.Get(table, routeID);
    }

    method TryAcquire(routeID: int, limit: int) returns (handle: ReleaseHandle?, generation: nat, ok: bool)
      requires Valid()
      modifies this, state.Values
      ensures Valid() && table == Table.Step(old(table), Table.Acquire(routeID, limit, old(nextTicket)))
      ensures ok <==> handle != null
      ensures ok ==> fresh(handle) && handle.Lease() in handles && handles[handle.Lease()] == handle
                     && routeID in state && handle.held == state[routeID] && generation == state[routeID].generation
                     && (limit > 0 ==> state[routeID].row.inFlight <= limit)
    {
      var rs := Get(routeID);
      ghost var got := table;
      if limit > 0 && rs.row.inFlight >= limit {
        return null, 0, false;
      }
      var h := new ReleaseHandle(routeID, rs, nextTicket);
      Count(rs, h);
      assert table == Table.Step(old(table), Table.Acquire(routeID, limit, old(nextTicket)));
      return h, rs.generation, true;
    }

    method Count(rs: RouteState, h: ReleaseHandle)
      requires Valid() && h.routeID in state && state[h.routeID] == rs && h.held == rs
      requires !h.done && h.ticket == nextTicket && h !in handles.Values
      modifies this`table, this`handles, this`nextTicket, rs
      ensures Valid() && rs.row == old(rs.row).(inFlight := old(rs.row).inFlight + 1)
      ensures table == Table.SetRow(old(table), h.routeID, rs.row).(leases := old(table).leases + {h.Lease()})
      ensures handles == old(handles)[h.Lease() := h]
    {
      rs.row := rs.row.(inFlight := rs.row.inFlight + 1);
      handles := handles[h.Lease() := h];
      table := Table.SetRow(table, h.routeID, rs.row).(leases := table.leases + {h.Lease()});
      nextTicket := nextTicket + 1;
    }

    /** The closure: compares the row object it was given with the one the route has now. */
    method Release(handle: ReleaseHandle)
      requires Valid() && (!handle.done ==> handle.Lease() in handles && handles[handle.Lease()] == handle)
      modifies this, state.Values, handle
      ensures Valid() && handle.done && state == old(state)
      ensures table == if old(handle.done) then old(table) else Table.Step(old(table), Table.Release(handle.Lease()))
    {
      if handle.done {
        return;
      }
      CloseLease(handle);
      if handle.routeID in state && state[handle.routeID] == handle.held && handle.held.row.inFlight > 0 {
        handle.held.row := handle.held.row.(inFlight := handle.held.row.inFlight - 1);
        NoteRow(handle.routeID);
      }
    }

    method CloseLease(handle: ReleaseHandle)
      requires Valid() && !handle.done && handle.Lease() in handles && handles[handle.Lease()] == handle
      modifies this`table, this`handles, handle
      ensures Valid() && handle.done
      ensures table == old(table).(leases := old(table).leases - {handle.Lease()})
    {
      handle.done := true;
      handles := handles - {handle.Lease()};
      table := table.(leases := table.leases - {handle.Lease()});
    }

    method ReportVerdict(rep: Report, s: Settings, now: int) returns (changed: bool)
      requires Valid()
      modifies this, state.Values
      ensures Valid() && table == Table.Step(old(table), Table.Verdict(rep, s, now))
      ensures handles == old(handles)
    {
      var rs: RouteState;
      if rep.generation > 0 {
        if rep.routeID !in state || state[rep.routeID].generation != rep.generation {
          return false;
        }
        rs := state[rep.routeID];
      } else {
        rs := Get(rep.routeID);
      }
      changed := ReportKnown(rs, rep, s, now);
    }

    method ReportKnown(rs: RouteState, rep: Report, s: Settings, now: int) returns (changed: bool)
      requires Valid() && rep.routeID in state && rs == state[rep.routeID]
      modifies this`table, rs
      ensures Valid()
      ensures var reported := ReportRow(old(table).rows[rep.routeID], rep, s, now);
              table == Table.SetRow(old(table), rep.routeID, reported.0) && changed == reported.1
    {
      changed := rs.Apply(rep, s, now);
      NoteRow(rep.routeID);
    }

    method ClaimL2(routeID: int, s: Settings, now: int, legacyPiggyback: bool) returns (generation: nat, ok: bool)
      requires Valid()
      modifies this, state.Values
      ensures Valid() && table == Table.Step(old(table), Table.ClaimL2(routeID, s, now, legacyPiggyback))
      ensures ok <==> ClaimRow(Table.Get(old(table), routeID).rows[routeID], s, now, legacyPiggyback).1
      ensures ok ==> routeID in state && generation == state[routeID].generation
      ensures handles == old(handles)
    {
      var rs := Get(routeID);
      generation, ok := ClaimKnown(routeID, rs, s, now, legacyPiggyback);
    }

    method ClaimKnown(routeID: int, rs: RouteState, s: Settings, now: int, legacyPiggyback: bool)
      returns (generation: nat, ok: bool)
      requires Valid() && routeID in state && rs == state[routeID]
      modifies this`table, rs
      ensures Valid()
      ensures var claim := ClaimRow(old(table).rows[routeID], s, now, legacyPiggyback);
              table == Table.SetRow(old(table), routeID, claim.0) && ok == claim.1
      ensures ok ==> generation == rs.generation
    {
      generation, ok := ClaimOn(rs, s, now, legacyPiggyback);
      NoteRow(routeID);
    }

    /** The abstract table follows a row object that was changed in place. */
    ghost method NoteRow(routeID: int)
      requires routeID in state && ValidBut({routeID})
      modifies this`table
      ensures Valid() && table == Table.SetRow(old(table), routeID, state[routeID].row)
    {
      table := Table.SetRow(table, routeID, state[routeID].row);
    }

    method CompleteL2(routeID: int, s: Settings, completedAt: Instant, now: int, factor: real)
      requires Valid()
      modifies this, state.Values
      ensures Valid() && table == Table.Step(old(table), Table.CompleteL2(routeID, s, completedAt, now, factor))
      ensures handles == old(handles)
    {
      var rs := Get(routeID);
      CompleteKnown(routeID, rs, s, completedAt, now, factor);
    }

    method CompleteKnown(routeID: int, rs: RouteState, s: Settings, completedAt: Instant, now: int, factor: real)
      requires Valid() && routeID in state && rs == state[routeID]
      modifies this`table, rs
      ensures Valid()
      ensures table == Table.SetRow(old(table), routeID,
                                    CompleteRow(old(table).rows[routeID], s, completedAt, now, factor))
    {
      CompleteOn(rs, s, completedAt, now, factor);
      NoteRow(routeID);
    }

    method Forget(routeID: int)
      requires Valid()
      modifies this
      ensures Valid() && table == Table.Step(old(table), Table.Forget(routeID))
      ensures handles == old(handles)
    {
      state := state - {routeID};
      table := table.(rows := table.rows - {routeID});
    }

    method RetainOnly(keep: set<int>)
      requires Valid()
      modifies this
      ensures Valid() && table == Table.Step(old(table), Table.RetainOnly(keep))
      ensures handles == old(handles)
    {
      state := RetainedRows(state, keep);
      table := Table.Step(table, Table.RetainOnly(keep));
    }
  }

  method RetainedRows(state: map<int, RouteState>, keep: set<int>) returns (left: map<int, RouteState>)
    ensures forall id :: id in left <==> id in state && id in keep
    ensures forall id :: id in left ==> left[id] == state[id]
  {
    left := state;
    var ids := state.Keys;
    while exists id :: id in ids
      invariant ids <= left.Keys <= state.Keys
      invariant forall id :: id in left <==> id in state && (id in keep || id in ids)
      invariant forall id :: id in left ==> left[id] == state[id]
      decreases |ids|
    {
      var id :| id in ids;
      ids := ids - {id};
      if id !in keep {
        left := left - {id};
      }
    }
  }
}
