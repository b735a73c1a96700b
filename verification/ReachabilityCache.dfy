/** The in-memory copy of committed reachability rows, and the recovery signal it raises. */
module ReachabilityCache {
  import opened CommittedRows

  datatype Reach = Reach(state: string, networkRevision: int, selector: string, fingerprint: string)
  type Entry = Row<Reach>

  const UNREACHABLE := "unreachable"

  /** What the settings source says about a row: with published revisions a row must be current to be
      taken in at all; `current` compares a row with the settings or revision in force. */
  datatype Judge = Judge(published: bool, current: Entry -> bool)

  predicate Current(judge: Judge, row: Entry, revision: int) {
    row.content.networkRevision == revision && judge.current(row)
  }

  predicate Ignores(judge: Judge, upstream: int, row: Entry) {
    upstream <= 0 || (judge.published && !Current(judge, row, row.content.networkRevision))
  }

  function CellAt(rows: map<int, Entry>, upstream: int): Cell<Reach> {
    if upstream in rows then Holds(rows[upstream]) else Empty
  }

  function EffectiveAt(cell: Cell<Reach>, judge: Judge, revision: int): string {
    if cell.Holds? && Current(judge, cell.row, revision) then cell.row.content.state else "unknown"
  }

  /** The new cell, and whether the upstream just left the unreachable state. */
  function Apply(cell: Cell<Reach>, judge: Judge, upstream: int, row: Entry): (Cell<Reach>, bool) {
    if Ignores(judge, upstream, row) || (cell.Holds? && Rejects(cell.row, row)) then (cell, false)
    else
      (Holds(row),
       && cell.Holds? && row.token != "" && cell.row.content.state == UNREACHABLE
       && row.content.state != UNREACHABLE && Current(judge, cell.row, row.content.networkRevision))
  }

  /** The signal means what a reader of the cache would have seen: unreachable before, under the
      revision of the new row, and the new row in place and no longer unreachable after. */
  lemma SignalIsEffectiveChange(cell: Cell<Reach>, judge: Judge, upstream: int, row: Entry)
    ensures var (after, left) := Apply(cell, judge, upstream, row);
            left <==>
            && EffectiveAt(cell, judge, row.content.networkRevision) == UNREACHABLE
            && row.token != "" && row.content.state != UNREACHABLE && after == Holds(row) && after != cell
  {
  }

  /** One upstream's commits, each with the settings in force when it is applied. */
  datatype Arrival = Arrival(row: Entry, judge: Judge)

  function Fold(cell: Cell<Reach>, upstream: int, arrivals: seq<Arrival>): Cell<Reach>
    decreases |arrivals|
  {
    if arrivals == [] then cell
    else
      var last := arrivals[|arrivals| - 1];
      Apply(Fold(cell, upstream, arrivals[..|arrivals| - 1]), last.judge, upstream, last.row).0
  }

  function Signals(cell: Cell<Reach>, upstream: int, arrivals: seq<Arrival>): nat
    decreases |arrivals|
  {
    if arrivals == [] then 0
    else
      var prefix, last := arrivals[..|arrivals| - 1], arrivals[|arrivals| - 1];
      Signals(cell, upstream, prefix)
      + if Apply(Fold(cell, upstream, prefix), last.judge, upstream, last.row).1 then 1 else 0
  }

  /** How many unreachable verdicts made it into the cell. */
  function Outages(cell: Cell<Reach>, upstream: int, arrivals: seq<Arrival>): nat
    decreases |arrivals|
  {
    if arrivals == [] then 0
    else
      var prefix, last := arrivals[..|arrivals| - 1], arrivals[|arrivals| - 1];
      var before := Fold(cell, upstream, prefix);
      Outages(cell, upstream, prefix)
      + if Apply(before, last.judge, upstream, last.row).0 != before && last.row.content.state == UNREACHABLE
        then 1 else 0
  }

  predicate Down(cell: Cell<Reach>) {
    cell.Holds? && cell.row.content.state == UNREACHABLE
  }

  /** Recoveries are never announced twice for one outage: between two signals an unreachable
      verdict must have been taken in. */
  lemma {:induction false} OneSignalPerOutage(cell: Cell<Reach>, upstream: int, arrivals: seq<Arrival>)
    ensures Signals(cell, upstream, arrivals) + (if Down(Fold(cell, upstream, arrivals)) then 1 else 0)
            <= Outages(cell, upstream, arrivals) + if Down(cell) then 1 else 0
    decreases |arrivals|
  {
    if arrivals != [] {
      OneSignalPerOutage(cell, upstream, arrivals[..|arrivals| - 1]);
    }
  }

  /** The rows among the arrivals that the settings let in. */
  function Taken(upstream: int, arrivals: seq<Arrival>): seq<Entry>
    decreases |arrivals|
  {
    if arrivals == [] then []
    else
      var prefix, last := arrivals[..|arrivals| - 1], arrivals[|arrivals| - 1];
      if Ignores(last.judge, upstream, last.row) then Taken(upstream, prefix) else Taken(upstream, prefix) + [last.row]
  }

  lemma ApplyIsGuardedAdmit(cell: Cell<Reach>, arrival: Arrival, upstream: int)
    ensures Apply(cell, arrival.judge, upstream, arrival.row).0
            == if Ignores(arrival.judge, upstream, arrival.row) then cell else Admit(cell, arrival.row)
  {
  }

  lemma {:induction false} FoldAdmitsTaken(cell: Cell<Reach>, upstream: int, arrivals: seq<Arrival>)
    ensures Fold(cell, upstream, arrivals) == AdmitAll(cell, Taken(upstream, arrivals))
    decreases |arrivals|
  {
    if arrivals != [] {
      var prefix, last := arrivals[..|arrivals| - 1], arrivals[|arrivals| - 1];
      FoldAdmitsTaken(cell, upstream, prefix);
      ApplyIsGuardedAdmit(Fold(cell, upstream, prefix), last, upstream);
      AdmitOneMore(cell, Taken(upstream, prefix), last.row);
    }
  }

  /** Commits of one published identity end at their highest order, in any arrival order, with
      duplicates and placeholders, and with commits of any other identity turned away by settings. */
  lemma CommitsSettleOnHighest(upstream: int, arrivals: seq<Arrival>, like: Entry, top: Entry)
    requires OneIdentity(Taken(upstream, arrivals), like) && HighestIs(Taken(upstream, arrivals), like, top)
    ensures Fold(Empty, upstream, arrivals) == Holds(top)
  {
    FoldAdmitsTaken(Empty, upstream, arrivals);
    HighestOrderSurvives(Empty, Taken(upstream, arrivals), like, top);
  }

  class ReachabilityTracker {
    var rows: map<int, Entry>

    constructor ()
      ensures rows == map[]
    {
      rows := map[];
    }

    method ApplyCommitted(upstream: int, row: Entry, judge: Judge) returns (leftUnreachable: bool)
      modifies this
      ensures (CellAt(rows, upstream), leftUnreachable) == Apply(CellAt(old(rows), upstream), judge, upstream, row)
      ensures forall u :: u != upstream ==> CellAt(rows, u) == CellAt(old(rows), u)
    {
      if upstream <= 0 {
        return false;
      }
      if judge.published {
        if !Current(judge, row, row.content.networkRevision) {
          return false;
        }
      }
      var known := upstream in rows;
      if known && rows[upstream].token != "" && row.token == "" {
        return false;
      }
      if known && rows[upstream].createdAt == row.createdAt && rows[upstream].token == row.token &&
         rows[upstream].order >= row.order {
        return false;
      }
      leftUnreachable := known && row.token != "" && rows[upstream].content.state == UNREACHABLE &&
        row.content.state != UNREACHABLE && Current(judge, rows[upstream], row.content.networkRevision);
      rows := rows[upstream := row];
    }

    method Effective(upstream: int, revision: int, judge: Judge) returns (state: string)
      ensures state == EffectiveAt(CellAt(rows, upstream), judge, revision)
    {
      if upstream !in rows {
        return "unknown";
      }
      if !Current(judge, rows[upstream], revision) {
        return "unknown";
      }
      return rows[upstream].content.state;
    }

    /** Rows that no longer match their upstream's network revision, or the settings, are dropped;
        every reader of the remaining ones sees the same state as before. */
    method InvalidateStale(revisions: map<int, int>, judge: Judge)
      modifies this
      ensures forall u :: u in rows <==>
                u in old(rows) && Current(judge, old(rows)[u], if u in revisions then revisions[u] else 0)
      ensures forall u :: EffectiveAt(CellAt(rows, u), judge, if u in revisions then revisions[u] else 0)
                          == EffectiveAt(CellAt(old(rows), u), judge, if u in revisions then revisions[u] else 0)
    {
      var ids := rows.Keys;
      while exists u :: u in ids
        invariant ids <= old(rows).Keys
        invariant forall u :: u in rows <==>
                    && u in old(rows)
                    && (u in ids || Current(judge, old(rows)[u], if u in revisions then revisions[u] else 0))
        invariant forall u :: u in rows ==> rows[u] == old(rows)[u]
        decreases |ids|
      {
        var u :| u in ids;
        ids := ids - {u};
        var revision := if u in revisions then revisions[u] else 0;
        if !Current(judge, rows[u], revision) {
          rows := rows - {u};
        }
      }
    }
  }
}
