/** One cell of the in-memory caches of committed rows, and what is left in it when commits come
    back in any order. */
module CommittedRows {
  import Sequencer = ObservationSequencer

  /** `createdAt` and `token` name the configuration a row was observed under; the empty token marks
      a placeholder. Capability rows have no `createdAt`, it is 0 in all of them. */
  datatype Row<C> = Row(createdAt: int, token: string, order: int, content: C)
  datatype Cell<C> = Empty | Holds(row: Row<C>)

  predicate Same<C>(a: Row<C>, b: Row<C>) {
    a.createdAt == b.createdAt && a.token == b.token
  }

  /** The compare-and-set of both caches. */
  predicate Rejects<C>(current: Row<C>, row: Row<C>) {
    (current.token != "" && row.token == "") || (Same(current, row) && current.order >= row.order)
  }

  function Admit<C>(cell: Cell<C>, row: Row<C>): Cell<C> {
    if cell.Holds? && Rejects(cell.row, row) then cell else Holds(row)
  }

  function AdmitAll<C>(cell: Cell<C>, rows: seq<Row<C>>): Cell<C>
    decreases |rows|
  {
    if rows == [] then cell else Admit(AdmitAll(cell, rows[..|rows| - 1]), rows[|rows| - 1])
  }

  lemma {:induction false} AdmitAllSplit<C>(cell: Cell<C>, a: seq<Row<C>>, b: seq<Row<C>>)
    ensures AdmitAll(cell, a + b) == AdmitAll(AdmitAll(cell, a), b)
    decreases |b|
  {
    if b == [] {
      assert a + b == a;
    } else {
      assert (a + b)[..|a + b| - 1] == a + b[..|b| - 1];
      AdmitAllSplit(cell, a, b[..|b| - 1]);
    }
  }

  lemma AdmitOneMore<C>(cell: Cell<C>, rows: seq<Row<C>>, row: Row<C>)
    ensures AdmitAll(cell, rows + [row]) == Admit(AdmitAll(cell, rows), row)
  {
  }

  /** Row `i` has the highest order among the rows of this identity, and is the first that has it. */
  predicate FirstHighest<C>(rows: seq<Row<C>>, like: Row<C>, i: int) {
    && 0 <= i < |rows| && Same(rows[i], like)
    && (forall j :: 0 <= j < |rows| && Same(rows[j], like) ==>
          rows[j].order <= rows[i].order && (j < i ==> rows[j].order < rows[i].order))
  }

  /** One identity, and placeholders between. */
  predicate OneIdentity<C>(rows: seq<Row<C>>, like: Row<C>) {
    like.token != "" && forall i :: 0 <= i < |rows| ==> Same(rows[i], like) || rows[i].token == ""
  }

  predicate Strange<C>(cell: Cell<C>, like: Row<C>) {
    cell.Empty? || !Same(cell.row, like)
  }

  lemma OneFirstHighest<C>(rows: seq<Row<C>>, like: Row<C>, i: int, j: int)
    requires FirstHighest(rows, like, i) && FirstHighest(rows, like, j)
    ensures i == j
  {
  }

  lemma HighestOfLonger<C>(rows: seq<Row<C>>, like: Row<C>, h: int)
    requires rows != [] && FirstHighest(rows[..|rows| - 1], like, h)
    ensures var last := |rows| - 1;
            FirstHighest(rows, like, if Same(rows[last], like) && rows[last].order > rows[h].order then last else h)
  {
  }

  lemma {:induction false} Survivor<C>(cell: Cell<C>, rows: seq<Row<C>>, like: Row<C>) returns (h: int)
    requires OneIdentity(rows, like) && Strange(cell, like)
    ensures h == -1 ==> Strange(AdmitAll(cell, rows), like) && forall i :: 0 <= i < |rows| ==> !Same(rows[i], like)
    ensures h != -1 ==> FirstHighest(rows, like, h) && AdmitAll(cell, rows) == Holds(rows[h])
    decreases |rows|
  {
    if rows == [] {
      return -1;
    }
    var last := |rows| - 1;
    var prefix := rows[..last];
    assert forall i :: 0 <= i < last ==> prefix[i] == rows[i];
    h := Survivor(cell, prefix, like);
    if h != -1 {
      HighestOfLonger(rows, like, h);
      if Same(rows[last], like) && rows[last].order > rows[h].order {
        h := last;
      }
    } else if Same(rows[last], like) {
      h := last;
    }
  }

  /** After any arrivals of one identity with placeholders mixed in, the cell holds the first of the
      highest rows of that identity, or still something else if there was none. */
  lemma FirstHighestSurvives<C>(cell: Cell<C>, rows: seq<Row<C>>, like: Row<C>)
    requires OneIdentity(rows, like) && Strange(cell, like)
    ensures (exists i :: FirstHighest(rows, like, i)) <==> (exists i :: 0 <= i < |rows| && Same(rows[i], like))
    ensures forall i :: FirstHighest(rows, like, i) ==> AdmitAll(cell, rows) == Holds(rows[i])
    ensures (forall i :: 0 <= i < |rows| ==> !Same(rows[i], like)) ==> Strange(AdmitAll(cell, rows), like)
  {
    var h := Survivor(cell, rows, like);
    forall i | FirstHighest(rows, like, i) ensures AdmitAll(cell, rows) == Holds(rows[i]) {
      if h != -1 {
        OneFirstHighest(rows, like, i, h);
      }
    }
  }

  /** No two different rows of this identity share the highest order. */
  ghost predicate HighestIs<C(!new)>(rows: seq<Row<C>>, like: Row<C>, top: Row<C>) {
    && top in rows && Same(top, like)
    && (forall r :: r in rows && Same(r, like) ==> r.order < top.order || r == top)
  }

  /** Committed rows of one token with distinct orders, in any permutation, repeated any number of
      times and with placeholders mixed in, end with the highest-order row. */
  lemma HighestOrderSurvives<C(!new)>(cell: Cell<C>, rows: seq<Row<C>>, like: Row<C>, top: Row<C>)
    requires OneIdentity(rows, like) && Strange(cell, like) && HighestIs(rows, like, top)
    ensures AdmitAll(cell, rows) == Holds(top)
  {
    FirstHighestSurvives(cell, rows, like);
    var t :| 0 <= t < |rows| && rows[t] == top;
    var h :| FirstHighest(rows, like, h);
    assert rows[t].order <= rows[h].order;
  }

  function MovedFirst<C>(rows: seq<Row<C>>, i: nat): seq<Row<C>>
    requires i < |rows|
  {
    [rows[i]] + rows[..i] + rows[i + 1..]
  }

  lemma MovedFirstIsPermutation<C(!new)>(rows: seq<Row<C>>, i: nat)
    requires i < |rows|
    ensures multiset(MovedFirst(rows, i)) == multiset(rows)
    ensures forall r :: r in MovedFirst(rows, i) <==> r in rows
  {
    var a, b, c := rows[..i], [rows[i]], rows[i + 1..];
    assert rows == a + b + c && MovedFirst(rows, i) == b + a + c;
    assert multiset(rows) == multiset(a) + multiset(b) + multiset(c);
    assert multiset(MovedFirst(rows, i)) == multiset(b) + multiset(a) + multiset(c);
    SameElements(MovedFirst(rows, i), rows);
  }

  /** Putting a row of the highest order in front makes it the survivor. */
  lemma FrontRunnerSurvives<C(!new)>(rows: seq<Row<C>>, like: Row<C>, i: nat)
    requires OneIdentity(rows, like) && i < |rows| && Same(rows[i], like)
    requires forall r :: r in rows && Same(r, like) ==> r.order <= rows[i].order
    ensures multiset(MovedFirst(rows, i)) == multiset(rows)
    ensures AdmitAll(Empty, MovedFirst(rows, i)) == Holds(rows[i])
  {
    var moved := MovedFirst(rows, i);
    MovedFirstIsPermutation(rows, i);
    assert forall j :: 0 <= j < |moved| ==> moved[j] in rows;
    FirstHighestSurvives(Empty, moved, like);
    assert FirstHighest(moved, like, 0);
  }

  lemma UniqueHighestIsStable<C(!new)>(rows: seq<Row<C>>, other: seq<Row<C>>, like: Row<C>, top: Row<C>)
    requires OneIdentity(rows, like) && HighestIs(rows, like, top) && multiset(other) == multiset(rows)
    ensures AdmitAll(Empty, other) == AdmitAll(Empty, rows)
  {
    SameElements(rows, other);
    assert forall i :: 0 <= i < |other| ==> other[i] in rows;
    HighestOrderSurvives(Empty, rows, like, top);
    HighestOrderSurvives(Empty, other, like, top);
  }

  lemma TieIsDecidedByArrival<C(!new)>(rows: seq<Row<C>>, like: Row<C>, h: int) returns (other: seq<Row<C>>)
    requires OneIdentity(rows, like) && FirstHighest(rows, like, h) && !HighestIs(rows, like, rows[h])
    ensures multiset(other) == multiset(rows) && AdmitAll(Empty, other) != AdmitAll(Empty, rows)
  {
    FirstHighestSurvives(Empty, rows, like);
    var r :| r in rows && Same(r, like) && !(r.order < rows[h].order || r == rows[h]);
    var i :| 0 <= i < |rows| && rows[i] == r;
    assert rows[i].order == rows[h].order;
    FrontRunnerSurvives(rows, like, i);
    other := MovedFirst(rows, i);
  }

  ghost predicate ArrivalIrrelevant<C(!new)>(rows: seq<Row<C>>) {
    forall other :: multiset(other) == multiset(rows) ==> AdmitAll(Empty, other) == AdmitAll(Empty, rows)
  }

  /** The order in which commits come back does not matter exactly when no two different rows
      share the highest order. */
  lemma ArrivalMattersOnlyForTies<C(!new)>(rows: seq<Row<C>>, like: Row<C>)
    requires OneIdentity(rows, like) && exists i :: 0 <= i < |rows| && Same(rows[i], like)
    ensures ArrivalIrrelevant(rows) <==> exists top :: HighestIs(rows, like, top)
  {
    if top :| HighestIs(rows, like, top) {
      forall other | multiset(other) == multiset(rows) ensures AdmitAll(Empty, other) == AdmitAll(Empty, rows) {
        UniqueHighestIsStable(rows, other, like, top);
      }
    } else {
      FirstHighestSurvives(Empty, rows, like);
      var h :| FirstHighest(rows, like, h);
      var other := TieIsDecidedByArrival(rows, like, h);
    }
  }

  lemma SameElements<C(!new)>(a: seq<Row<C>>, b: seq<Row<C>>)
    requires multiset(a) == multiset(b)
    ensures forall r :: r in a <==> r in b
  {
    forall r ensures r in a <==> r in b {
      assert r in a <==> r in multiset(a);
      assert r in b <==> r in multiset(b);
    }
  }

  /** A row that names a configuration always leaves the cell at that configuration, even with a
      lower order than the row it replaces. */
  lemma NamedRowSetsIdentity<C>(cell: Cell<C>, row: Row<C>)
    requires row.token != ""
    ensures Admit(cell, row).Holds? && Same(Admit(cell, row).row, row)
  {
  }

  /** With identities mixed, the survivor is the first highest row of the last unbroken block: rows
      seen before another identity came between no longer count. */
  lemma LastIdentityDecides<C>(rows: seq<Row<C>>, start: nat, like: Row<C>, i: int)
    requires start <= |rows| && OneIdentity(rows[start..], like)
    requires start == 0 || (rows[start - 1].token != "" && !Same(rows[start - 1], like))
    requires FirstHighest(rows[start..], like, i)
    ensures AdmitAll(Empty, rows) == Holds(rows[start + i])
  {
    assert rows == rows[..start] + rows[start..];
    AdmitAllSplit(Empty, rows[..start], rows[start..]);
    var cell := AdmitAll(Empty, rows[..start]);
    if start > 0 {
      assert rows[..start][..start - 1] == rows[..start - 1];
      NamedRowSetsIdentity(AdmitAll(Empty, rows[..start - 1]), rows[start - 1]);
    }
    FirstHighestSurvives(cell, rows[start..], like);
  }

  /** So highest-order does not survive once another token comes between: 5 under "t", then a late
      row under "u", then a late 4 under "t" leave 4. */
  lemma InterleavedTokenLosesHighest()
    ensures var rows := [Row(0, "t", 5, 'a'), Row(0, "u", 3, 'b'), Row(0, "t", 4, 'c')];
            AdmitAll(Empty, rows) == Holds(rows[2])
  {
  }

  /** The sequencer supplies the distinctness: rows that took their orders from its issued log,
      each from a place of its own, have exactly one highest. */
  lemma SequencedRowsAgree<C(!new)>(sys: Sequencer.System, events: seq<Sequencer.Event>,
                                  rows: seq<Row<C>>, place: seq<nat>, like: Row<C>, h: nat)
    requires Sequencer.Valid(sys) && Sequencer.EnabledRun(sys, events)
    requires |place| == |rows| && OneIdentity(rows, like) && h < |rows| && Same(rows[h], like)
    requires var issued := Sequencer.Run(sys, events).issued;
             && (forall i :: 0 <= i < |rows| ==> place[i] < |issued| && rows[i].order == issued[place[i]])
             && (forall i, j :: 0 <= i < |rows| && 0 <= j < |rows| && place[i] == place[j] ==> rows[i] == rows[j])
             && (forall i :: 0 <= i < |rows| && Same(rows[i], like) ==> place[i] <= place[h])
    ensures AdmitAll(Empty, rows) == Holds(rows[h])
  {
    Sequencer.OrdersNeverRepeat(sys, events);
    HighestOrderSurvives(Empty, rows, like, rows[h]);
  }
}
