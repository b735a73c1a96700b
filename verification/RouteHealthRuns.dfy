/** What whole histories of one route's row satisfy: recovery from dead, and probe spacing. */
module RouteHealthRuns {
  import opened RouteHealth

  /** What may happen to a row between its creation and its removal, other than a manual trigger,
      defer, stagger or reset of the schedule. */
  datatype RowEvent =
    | Reported(rep: Report, now: int)
    | Claim(now: int, legacyPiggyback: bool)
    | Complete(completedAt: Instant, now: int, factor: real)
    | Occupy
    | Vacate

  function RowStep(row: Row, event: RowEvent, s: Settings): Row {
    match event
    case Reported(rep, now) => ReportRow(row, rep, s, now).0
    case Claim(now, legacyPiggyback) => ClaimRow(row, s, now, legacyPiggyback).0
    case Complete(completedAt, now, factor) => CompleteRow(row, s, completedAt, now, factor)
    case Occupy => row.(inFlight := row.inFlight + 1)
    case Vacate => if row.inFlight > 0 then row.(inFlight := row.inFlight - 1) else row
  }

  function RunRow(row: Row, events: seq<RowEvent>, s: Settings): Row
    decreases |events|
  {
    if events == [] then row
    else RowStep(RunRow(row, events[..|events| - 1], s), events[|events| - 1], s)
  }

  // ---- Dead, recovering, alive ----

  /** The stored fingerprint, if any, is that of the current settings: no report rebases the row. */
  predicate PolicyCurrent(row: Row, s: Settings) {
    row.identity.Identity? ==> row.identity.policy == PolicyOf(s)
  }

  predicate Success(event: RowEvent) {
    event.Reported? && event.rep.verdict.OK?
  }

  predicate Armed(event: RowEvent) {
    Success(event) && event.rep.halfOpen
  }

  predicate FromRealTraffic(event: RowEvent) {
    Success(event) && event.rep.source.RealTraffic?
  }

  /** The exact ways out of dead and out of recovering, for any event. */
  lemma LeavingDeadAndRecovering(row: Row, event: RowEvent, s: Settings)
    requires PolicyCurrent(row, s)
    ensures var after := RowStep(row, event, s);
            && PolicyCurrent(after, s)
            && (row.state.Dead? ==>
                  && (!after.state.Dead? <==> Armed(event))
                  && (after.state.Alive? <==> Armed(event) && FromRealTraffic(event))
                  && (after.state.Dead? ==> after.deadSince == row.deadSince)
                  && !after.state.Unknown?)
            && (row.state.Recovering? ==>
                  && (after.state.Alive? <==>
                        FromRealTraffic(event) || (Success(event) && after.okRun >= s.okThreshold))
                  && !after.state.Unknown?
                  && (after.state.Dead? ==> after.deadSince == At(event.now)))
  {
  }

  /** Evidence at index i that a dead route may be used: an armed success that is real, or one
      followed by a further success at j that is real or completes the success threshold. */
  ghost predicate RecoveredBy(row: Row, events: seq<RowEvent>, s: Settings, i: nat, j: nat) {
    && i < |events| && Armed(events[i])
    && (FromRealTraffic(events[i])
        || (i < j < |events| && Success(events[j])
            && (FromRealTraffic(events[j]) || RunRow(row, events[..j + 1], s).okRun >= s.okThreshold)))
  }

  ghost predicate ArmedBefore(events: seq<RowEvent>) {
    exists i :: 0 <= i < |events| && Armed(events[i])
  }

  lemma PrefixRun(row: Row, events: seq<RowEvent>, s: Settings, n: nat)
    requires n < |events|
    ensures events[..|events| - 1][..n] == events[..n]
  {
  }

  /** Through any history under unchanged settings, a route that was dead is alive again only with
      that evidence, is recovering only after an armed success, and is never unknown. */
  lemma {:induction false} AliveAgainNeedsEvidence(row: Row, events: seq<RowEvent>, s: Settings)
    requires row.state.Dead? && PolicyCurrent(row, s)
    ensures var end := RunRow(row, events, s);
            && PolicyCurrent(end, s) && !end.state.Unknown?
            && (end.state.Recovering? ==> ArmedBefore(events))
            && (end.state.Alive? ==> exists i: nat, j: nat :: RecoveredBy(row, events, s, i, j))
    decreases |events|
  {
    if events != [] {
      var prefix, event := events[..|events| - 1], events[|events| - 1];
      AliveAgainNeedsEvidence(row, prefix, s);
      var before, end := RunRow(row, prefix, s), RunRow(row, events, s);
      LeavingDeadAndRecovering(before, event, s);
      AliveStep(before, event, s);
      assert events[..|events|] == events;
      if ArmedBefore(prefix) {
        var i :| 0 <= i < |prefix| && Armed(prefix[i]);
        assert Armed(events[i]);
        if before.state.Recovering? && end.state.Alive? {
          assert RecoveredBy(row, events, s, i, |events| - 1);
        }
      }
      if before.state.Dead? && end.state.Alive? {
        assert RecoveredBy(row, events, s, |events| - 1, 0);
      }
      if before.state.Alive? && end.state.Alive? {
        var i: nat, j: nat :| RecoveredBy(row, prefix, s, i, j);
        if i < j < |prefix| {
          PrefixRun(row, events, s, j + 1);
        }
        assert RecoveredBy(row, events, s, i, j);
      }
      if before.state.Dead? && end.state.Recovering? {
        assert Armed(events[|events| - 1]);
      }
    }
  }

  lemma AliveStep(row: Row, event: RowEvent, s: Settings)
    requires PolicyCurrent(row, s)
    ensures row.state.Alive? ==> RowStep(row, event, s).state in {Alive, Dead}
  {
  }

  /** Without an armed success a dead route stays dead, keeps the instant it died, and its L2 probes
      never become more frequent. */
  lemma {:induction false} DeadSpellKeepsItsTier(row: Row, events: seq<RowEvent>, s: Settings, t1: int, t2: int)
    requires row.state.Dead? && PolicyCurrent(row, s)
    requires forall i :: 0 <= i < |events| ==> !Armed(events[i])
    requires t1 <= t2
    ensures var end := RunRow(row, events, s);
            && end.state.Dead? && end.deadSince == row.deadSince && PolicyCurrent(end, s)
            && L2Interval(row, s, At(t1)) <= L2Interval(end, s, At(t2))
    decreases |events|
  {
    if events != [] {
      var prefix := events[..|events| - 1];
      DeadSpellKeepsItsTier(row, prefix, s, t1, t2);
      LeavingDeadAndRecovering(RunRow(row, prefix, s), events[|events| - 1], s);
    }
  }

  /** The exact way out of dead for every row and event, whatever fingerprint the row carries. */
  lemma LeavingDead(row: Row, event: RowEvent, s: Settings)
    requires row.state.Dead?
    ensures var after := RowStep(row, event, s);
            !after.state.Dead? <==>
              if event.Reported? && NeedsRebase(row, event.rep, s)
              then !(event.rep.verdict.Fatal? || (event.rep.verdict.Unavailable? && s.failThreshold <= 1))
              else Armed(event)
  {
  }

  /** The fingerprint condition is exact: a bound verdict under another policy takes a dead row out
      of dead whatever it says, unless the verdict itself kills it again. */
  lemma StalePolicyForgetsDead(row: Row, rep: Report, now: int, s: Settings)
    requires row.state.Dead? && NeedsRebase(row, rep, s)
    ensures var after := RowStep(row, Reported(rep, now), s);
            && (after.state.Dead? <==> rep.verdict.Fatal? || (rep.verdict.Unavailable? && s.failThreshold <= 1))
            && (after.state.Dead? ==> after.deadSince == At(now))
  {
  }

  // ---- Spacing of L2 probes on an alive route ----

  /** Nine tenths of the floored interval. Intervals are whole seconds, so this is exact. */
  function MinGap(s: Settings): int {
    AliveL2Interval(s) / 10 * 9
  }

  /** The instants of the claims that succeeded, in order. */
  function Claims(row: Row, events: seq<RowEvent>, s: Settings): seq<int>
    decreases |events|
  {
    if events == [] then []
    else
      var prefix, event := events[..|events| - 1], events[|events| - 1];
      var before := Claims(row, prefix, s);
      if event.Claim? && ClaimRow(RunRow(row, prefix, s), s, event.now, event.legacyPiggyback).1
      then before + [event.now]
      else before
  }

  /** The row is alive after every event, and a completion is not dated before the latest claim. */
  predicate AliveThroughout(row: Row, events: seq<RowEvent>, s: Settings)
    decreases |events|
  {
    && RunRow(row, events, s).state.Alive?
    && (events != [] ==>
          var prefix, event := events[..|events| - 1], events[|events| - 1];
          && AliveThroughout(row, prefix, s)
          && (event.Complete? && Claims(row, prefix, s) != [] ==>
                var latest := Claims(row, prefix, s)[|Claims(row, prefix, s)| - 1];
                latest <= if event.completedAt.Never? then event.now else event.completedAt.t))
  }

  lemma ScaledUp(base: real, low: real, f: real)
    requires base >= 0.0 && low <= f
    ensures base * low <= base * f
  {
  }

  lemma FloorAtLeast(x: real, n: int)
    requires n as real <= x
    ensures n <= x.Floor
  {
  }

  lemma ScaledFloor(base: real, f: real, n: int)
    requires base >= 0.0 && 0.9 <= f && n as real <= base * 0.9
    ensures n <= (base * f).Floor
  {
    ScaledUp(base, 0.9, f);
    FloorAtLeast(base * f, n);
  }

  lemma JitterKeepsNineTenths(s: Settings, factor: real)
    ensures 0 < MinGap(s) <= ApplyJitter(AliveL2Interval(s), factor)
    ensures MinGap(s) <= AliveL2Interval(s)
  {
    var base := AliveL2Interval(s);
    assert MinGap(s) == base / 10 * 9 && base % 10 == 0;
    if factor > 0.0 {
      var f := if factor < 0.9 then 0.9 else if factor > 1.1 then 1.1 else factor;
      assert MinGap(s) as real == (base as real) * 0.9;
      ScaledFloor(base as real, f, MinGap(s));
    }
  }

  predicate Spaced(claims: seq<int>, gap: int) {
    forall i :: 0 < i < |claims| ==> claims[i - 1] + gap <= claims[i]
  }

  /** One event on an alive row: a successful claim comes when due and moves the due time a whole gap on,
      a completion puts it a gap after its date, and nothing else moves it back. */
  lemma DueTimeMoves(row: Row, event: RowEvent, s: Settings)
    requires row.state.Alive?
    ensures var after := RowStep(row, event, s);
            match event
            case Claim(now, legacyPiggyback) =>
              if ClaimRow(row, s, now, legacyPiggyback).1
              then !Before(now, row.nextL2At) && after.nextL2At.At? && now + MinGap(s) <= after.nextL2At.t
              else row.nextL2At.At? ==> after.nextL2At.At? && row.nextL2At.t <= after.nextL2At.t
            case Complete(completedAt, now, _) =>
              after.nextL2At.At? && (if completedAt.Never? then now else completedAt.t) + MinGap(s) <= after.nextL2At.t
            case _ => after.nextL2At == row.nextL2At
  {
    match event
    case Complete(_, _, factor) => JitterKeepsNineTenths(s, factor);
    case _ => JitterKeepsNineTenths(s, 0.0);
  }

  /** On a route that stays alive, whatever reports, skipped claims and jittered completions come
      between, successful L2 claims are at least nine tenths of the interval apart. */
  lemma {:induction false} ClaimsAreSpaced(row: Row, events: seq<RowEvent>, s: Settings)
    requires AliveThroughout(row, events, s)
    ensures var claims := Claims(row, events, s);
            && Spaced(claims, MinGap(s))
            && (claims != [] ==>
                  var next := RunRow(row, events, s).nextL2At;
                  next.At? && claims[|claims| - 1] + MinGap(s) <= next.t)
    decreases |events|
  {
    if events != [] {
      var prefix, event := events[..|events| - 1], events[|events| - 1];
      ClaimsAreSpaced(row, prefix, s);
      DueTimeMoves(RunRow(row, prefix, s), event, s);
    }
  }

  lemma {:induction false} SpacedFrom(claims: seq<int>, gap: int, i: nat, j: nat)
    requires Spaced(claims, gap) && i <= j < |claims| && gap > 0
    ensures claims[i] + (j - i) * gap <= claims[j]
    decreases j - i
  {
    if i < j {
      SpacedFrom(claims, gap, i, j - 1);
      assert (j - i) * gap == (j - 1 - i) * gap + gap;
    }
  }

  /** So any window holds at most one claim more than the gaps that fit into it. */
  lemma WindowHoldsFewClaims(row: Row, events: seq<RowEvent>, s: Settings, i: nat, j: nat, window: int)
    requires AliveThroughout(row, events, s)
    requires i <= j < |Claims(row, events, s)|
    requires Claims(row, events, s)[j] - Claims(row, events, s)[i] <= window
    ensures MinGap(s) > 0 && j - i + 1 <= 1 + window / MinGap(s)
  {
    ClaimsAreSpaced(row, events, s);
    JitterKeepsNineTenths(s, 0.0);
    SpacedFrom(Claims(row, events, s), MinGap(s), i, j);
    QuotientBounds(j - i, MinGap(s), window);
  }

  lemma QuotientBounds(n: nat, gap: int, window: int)
    requires gap > 0 && n * gap <= window
    ensures n <= window / gap
  {
    if n > window / gap {
      ProductGrows(window / gap + 1, n, gap);
    }
  }

  lemma ProductGrows(a: int, b: int, gap: int)
    requires a <= b && gap > 0
    ensures a * gap <= b * gap
  {
  }
}
