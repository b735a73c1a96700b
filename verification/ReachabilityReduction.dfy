/** The station-level reachability reducer and what folding it over a history computes. */
module ReachabilityReduction {

  datatype State = NoState | Unknown | Reachable | Unreachable

  /** Millisecond stamps of one execution; zero or less means the stage was not reached. */
  datatype Stages = Stages(sent: int, gotConn: int, tlsStart: int, tlsDone: int, header: int, done: int)
  datatype Execution = Execution(reachable: bool, stages: Stages, detail: string, errorClass: string)
  datatype Policy = Policy(reachable: int, unreachable: int)
  datatype Row = Row(state: State, okRun: int, failRun: int, lastOKAt: int, lastErrorAt: int, lastError: string,
                     connectMS: int, tlsMS: int, headerMS: int)
  datatype Latencies = Latencies(connect: int, tls: int, header: int, diag: string)
  datatype Result = Reduced(row: Row) | BadPolicy

  const EMPTY_ROW := Row(NoState, 0, 0, 0, 0, "", 0, 0, 0)

  /** A later stage that is recorded lies before the stage it is measured from. */
  predicate OutOfOrder(s: Stages) {
    && s.sent > 0
    && (|| (s.gotConn > 0 && s.gotConn < s.sent)
        || (s.gotConn <= 0 && s.done > 0 && s.done < s.sent)
        || (s.tlsStart > 0 && s.tlsDone > 0 && s.tlsDone < s.tlsStart)
        || (s.header > 0 && s.header < if s.gotConn > 0 then s.gotConn else s.sent))
  }

  /** The stage latencies: all three or none, never negative, with a diagnosis exactly for stages
      out of order. The three later order checks add nothing to the first. */
  method StageLatencies(s: Stages) returns (l: Latencies)
    ensures l.diag != "" <==> OutOfOrder(s)
    ensures l.connect >= 0 && l.tls >= 0 && l.header >= 0
    ensures l.diag != "" || s.sent <= 0 ==> l.connect == 0 && l.tls == 0 && l.header == 0
    ensures l.diag == "" && s.sent > 0 ==>
              && l.connect == (if s.gotConn > 0 then s.gotConn - s.sent else if s.done > 0 then s.done - s.sent else 0)
              && l.tls == (if s.tlsStart > 0 && s.tlsDone > 0 then s.tlsDone - s.tlsStart else 0)
              && l.header == (if s.header > 0 then s.header - (if s.gotConn > 0 then s.gotConn else s.sent) else 0)
    ensures l == LatenciesOf(s)
  {
    if s.sent <= 0 {
      return Latencies(0, 0, 0, "");
    }
    var connectMS, tlsMS, headerMS := 0, 0, 0;
    if s.gotConn > 0 {
      connectMS := s.gotConn - s.sent;
    } else if s.done > 0 {
      connectMS := s.done - s.sent;
    }
    if s.tlsStart > 0 && s.tlsDone > 0 {
      tlsMS := s.tlsDone - s.tlsStart;
    }
    if s.header > 0 {
      var base := s.gotConn;
      if base <= 0 {
        base := s.sent;
      }
      headerMS := s.header - base;
    }
    var misordered := connectMS < 0 || tlsMS < 0 || headerMS < 0;
    misordered := misordered || (s.tlsStart > 0 && s.tlsDone > 0 && s.tlsDone < s.tlsStart);
    misordered := misordered || (s.gotConn > 0 && s.sent > 0 && s.gotConn < s.sent);
    misordered := misordered || (s.header > 0 && s.gotConn > 0 && s.header < s.gotConn);
    if misordered {
      return Latencies(0, 0, 0, "stage_order_invalid");
    }
    return Latencies(connectMS, tlsMS, headerMS, "");
  }

  function LatenciesOf(s: Stages): Latencies {
    if s.sent <= 0 then Latencies(0, 0, 0, "")
    else if OutOfOrder(s) then Latencies(0, 0, 0, "stage_order_invalid")
    else
      Latencies(if s.gotConn > 0 then s.gotConn - s.sent else if s.done > 0 then s.done - s.sent else 0,
                if s.tlsStart > 0 && s.tlsDone > 0 then s.tlsDone - s.tlsStart else 0,
                if s.header > 0 then s.header - (if s.gotConn > 0 then s.gotConn else s.sent) else 0, "")
  }

  function ErrorDetail(e: Execution, diag: string): string {
    if diag != "" then diag
    else if e.detail != "" then e.detail
    else if e.errorClass != "" && e.errorClass != "none" then e.errorClass
    else "unreachable"
  }

  function ReduceRow(current: Row, e: Execution, policy: Policy, now: int): Row {
    var l := LatenciesOf(e.stages);
    var timed := current.(connectMS := l.connect, tlsMS := l.tls, headerMS := l.header);
    if e.reachable then
      timed.(okRun := current.okRun + 1, failRun := 0, lastOKAt := now, lastError := "",
             state := if current.okRun + 1 >= policy.reachable then Reachable
                      else if current.state.Reachable? then Reachable else Unknown)
    else
      timed.(okRun := 0, failRun := current.failRun + 1, lastErrorAt := now, lastError := ErrorDetail(e, l.diag),
             state := if current.failRun + 1 >= policy.unreachable then Unreachable
                      else if current.state.NoState? then Unknown else current.state)
  }

  method ReduceReachability(current: Row, e: Execution, policy: Policy, now: int) returns (result: Result)
    ensures result == if policy.reachable <= 0 || policy.unreachable <= 0 then BadPolicy
                      else Reduced(ReduceRow(current, e, policy, now))
  {
    if policy.reachable <= 0 || policy.unreachable <= 0 {
      return BadPolicy;
    }
    var next := current;
    var l := StageLatencies(e.stages);
    next := next.(connectMS := l.connect);
    next := next.(tlsMS := l.tls);
    next := next.(headerMS := l.header);
    if e.reachable {
      next := next.(okRun := next.okRun + 1);
      next := next.(failRun := 0);
      next := next.(lastOKAt := now, lastError := "");
      if next.okRun >= policy.reachable || next.state == NoState || next.state == Unknown || next.state == Unreachable {
        if next.okRun >= policy.reachable {
          next := next.(state := Reachable);
        } else if next.state != Reachable {
          next := next.(state := Unknown);
        }
      }
    } else {
      next := next.(failRun := next.failRun + 1);
      next := next.(okRun := 0);
      next := next.(lastErrorAt := now, lastError := ErrorDetail(e, l.diag));
      if next.failRun >= policy.unreachable {
        next := next.(state := Unreachable);
      } else if next.state == NoState {
        next := next.(state := Unknown);
      }
    }
    if next.state == NoState {
      next := next.(state := Unknown);
    }
    return Reduced(next);
  }

  // ---- The fold over a whole history, against counting runs in that history ----

  datatype Observation = Observation(e: Execution, at: int)

  function Fold(history: seq<Observation>, policy: Policy): Row
    decreases |history|
  {
    if history == [] then EMPTY_ROW
    else
      var latest := history[|history| - 1];
      ReduceRow(Fold(history[..|history| - 1], policy), latest.e, policy, latest.at)
  }

  /** The last `n` observations before index `end` all have this outcome. */
  predicate RunOf(history: seq<Observation>, end: int, n: int, reachable: bool) {
    && 0 <= n <= end <= |history|
    && forall i :: end - n <= i < end ==> history[i].e.reachable == reachable
  }

  /** At some point a success run had reached the threshold, and no failure run reached its own since. */
  ghost predicate EarnedReachable(history: seq<Observation>, policy: Policy) {
    exists k :: ReachedAt(history, policy, k)
  }

  ghost predicate ReachedAt(history: seq<Observation>, policy: Policy, k: int) {
    && 0 < k <= |history| && RunOf(history, k, policy.reachable, true)
    && forall m :: k < m <= |history| ==> !RunOf(history, m, policy.unreachable, false)
  }

  lemma RunOfPrefix(history: seq<Observation>, end: int, n: int, reachable: bool)
    requires history != [] && 0 <= end <= |history| - 1
    ensures RunOf(history, end, n, reachable) <==> RunOf(history[..|history| - 1], end, n, reachable)
  {
  }

  /** The counters are the lengths of the trailing runs. */
  lemma {:induction false} CountersAreTrailingRuns(history: seq<Observation>, policy: Policy)
    ensures var row := Fold(history, policy);
            && 0 <= row.okRun && 0 <= row.failRun
            && (forall n :: 0 <= n <= |history| ==> (RunOf(history, |history|, n, true) <==> n <= row.okRun))
            && (forall n :: 0 <= n <= |history| ==> (RunOf(history, |history|, n, false) <==> n <= row.failRun))
            && row.okRun <= |history| && row.failRun <= |history|
    decreases |history|
  {
    if history != [] {
      var prefix := history[..|history| - 1];
      CountersAreTrailingRuns(prefix, policy);
      assert forall i :: 0 <= i < |prefix| ==> prefix[i] == history[i];
      forall n: int, outcome: bool | 0 < n <= |history|
        ensures RunOf(history, |history|, n, outcome)
                <==> history[|history| - 1].e.reachable == outcome && RunOf(prefix, |prefix|, n - 1, outcome)
      {
      }
    }
  }

  /** Folding from no row: unreachable exactly when the trailing failure run reached its threshold;
      reachable exactly when some success run reached the other and no later failure run did. */
  lemma {:induction false} StateTellsHistory(history: seq<Observation>, policy: Policy)
    requires policy.reachable > 0 && policy.unreachable > 0
    ensures var row := Fold(history, policy);
            && (row.state.Unreachable? <==> RunOf(history, |history|, policy.unreachable, false))
            && (row.state.Reachable? <==> EarnedReachable(history, policy))
            && (row.state.NoState? <==> history == [])
    decreases |history|
  {
    CountersAreTrailingRuns(history, policy);
    if history != [] {
      var prefix := history[..|history| - 1];
      StateTellsHistory(prefix, policy);
      CountersAreTrailingRuns(prefix, policy);
      ReachedStep(history, policy);
    }
  }

  /** How earning "reachable" moves with one more observation. */
  lemma ReachedStep(history: seq<Observation>, policy: Policy)
    requires policy.reachable > 0 && policy.unreachable > 0 && history != []
    ensures EarnedReachable(history, policy)
            <==> (|| RunOf(history, |history|, policy.reachable, true)
                  || (EarnedReachable(history[..|history| - 1], policy)
                      && !RunOf(history, |history|, policy.unreachable, false)))
  {
    var prefix, last := history[..|history| - 1], |history|;
    forall end: int, n: int, outcome: bool | 0 <= end < last
      ensures RunOf(history, end, n, outcome) <==> RunOf(prefix, end, n, outcome)
    {
      RunOfPrefix(history, end, n, outcome);
    }
    if RunOf(history, last, policy.reachable, true) {
      assert ReachedAt(history, policy, last);
    }
    if EarnedReachable(prefix, policy) && !RunOf(history, last, policy.unreachable, false) {
      var k :| ReachedAt(prefix, policy, k);
      assert ReachedAt(history, policy, k);
    }
    if EarnedReachable(history, policy) {
      var k :| ReachedAt(history, policy, k);
      if k < last {
        assert ReachedAt(prefix, policy, k);
      }
    }
  }
}
