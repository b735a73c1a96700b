/** The endpoint-capability reducer: config_error sticks until a manual test or a new configuration. */
module CapabilityReduction {

  datatype State = Unknown | Supported | Unsupported | TransientError | ConfigError

  /** A conclusion of an execution: none given, one of the five states, or a text that is none. */
  datatype Conclusion = NoConclusion | Concluded(state: State) | Bogus

  datatype Execution = Execution(ignored: bool, conclusion: Conclusion, token: string, manual: bool, realTraffic: bool,
                                 success: bool, doneAt: int, retryAfterUntil: int, statusCode: int)

  /** Times to live; zero or less means the row does not expire by itself. */
  datatype Policy = Policy(supported: int, unsupported: int, transient: int)
  datatype Row = Row(state: State, token: string, observedAt: int, expiresAt: int, statusCode: int,
                     lastRealOKAt: int, lastRealOKToken: string)
  datatype Stored = NoRow | HasRow(row: Row)
  datatype Result = Reduced(row: Row) | BadState

  const EMPTY_ROW := Row(Unknown, "", 0, 0, 0, 0, "")

  function TTL(ttl: int, now: int): int {
    if ttl <= 0 then 0 else now + ttl
  }

  function ExpiresAt(state: State, now: int, retryAfterUntil: int, policy: Policy): int {
    match state
    case Supported => TTL(policy.supported, now)
    case Unsupported => TTL(policy.unsupported, now)
    case TransientError => if retryAfterUntil > now then retryAfterUntil else TTL(policy.transient, now)
    case ConfigError => 0
    case Unknown => 0
  }

  function StateOf(conclusion: Conclusion): State
    requires !conclusion.Bogus?
  {
    if conclusion.Concluded? then conclusion.state else Unknown
  }

  predicate IsConfigError(e: Execution) {
    e.conclusion == Concluded(ConfigError)
  }

  predicate Suppressed(current: Stored, e: Execution) {
    current.HasRow? && current.row.state.ConfigError? && current.row.token == e.token && !e.manual && !IsConfigError(e)
  }

  function Updated(row: Row, e: Execution, policy: Policy, now: int): Row
    requires !e.conclusion.Bogus?
  {
    var genuine := e.realTraffic && e.success;
    row.(state := StateOf(e.conclusion), observedAt := now, statusCode := e.statusCode,
         expiresAt := ExpiresAt(StateOf(e.conclusion), now, e.retryAfterUntil, policy),
         lastRealOKAt := if genuine && e.doneAt > row.lastRealOKAt then e.doneAt else row.lastRealOKAt,
         lastRealOKToken := if genuine then e.token else row.lastRealOKToken)
  }

  function Reduce(current: Stored, e: Execution, policy: Policy, now: int): Result {
    var row := if current.HasRow? then current.row else EMPTY_ROW;
    if e.ignored || Suppressed(current, e) then Reduced(row)
    else if e.conclusion.Bogus? then BadState
    else Reduced(Updated(row, e, policy, now))
  }

  method ReduceCapability(current: Stored, e: Execution, policy: Policy, now: int) returns (result: Result)
    ensures result == Reduce(current, e, policy, now)
    ensures result.Reduced? && !e.ignored && !Suppressed(current, e) ==>
              result.row.expiresAt == 0 || result.row.expiresAt > now
  {
    if e.ignored {
      if current.NoRow? {
        return Reduced(EMPTY_ROW);
      }
      return Reduced(current.row);
    }
    if current.HasRow? && current.row.state == ConfigError && current.row.token == e.token
       && !e.manual && !IsConfigError(e) {
      return Reduced(current.row);
    }
    if e.conclusion.Bogus? {
      return BadState;
    }
    var state := StateOf(e.conclusion);
    var next := EMPTY_ROW;
    if current.HasRow? {
      next := current.row;
    }
    next := next.(state := state);
    next := next.(observedAt := now);
    next := next.(statusCode := e.statusCode);
    next := next.(expiresAt := ExpiresAt(state, now, e.retryAfterUntil, policy));
    if e.realTraffic && e.success {
      if e.doneAt > next.lastRealOKAt {
        next := next.(lastRealOKAt := e.doneAt);
      }
      next := next.(lastRealOKToken := e.token);
    }
    return Reduced(next);
  }

  // ---- Histories ----

  /** `adopts`: the store proved that a config_error row under another timeout profile belongs to this
      very configuration, and presents it to the reducer under the token of the execution. */
  datatype Observation = Observation(e: Execution, policy: Policy, at: int, adopts: bool)

  function Presented(stored: Stored, o: Observation): Stored {
    if o.adopts && stored.HasRow? && stored.row.state.ConfigError? then HasRow(stored.row.(token := o.e.token))
    else stored
  }

  /** Whether the reducer accepts the execution: a conclusion that is no state is an error, unless the
      execution is ignored or suppressed anyway. */
  predicate Accepts(stored: Stored, o: Observation) {
    Reduce(Presented(stored, o), o.e, o.policy, o.at).Reduced?
  }

  /** The store stamps the token of the execution on whatever the reducer returns; a reducer error
      commits nothing. */
  function Commit(stored: Stored, o: Observation): Stored {
    match Reduce(Presented(stored, o), o.e, o.policy, o.at)
    case Reduced(row) => HasRow(row.(token := o.e.token))
    case BadState => stored
  }

  function Fold(history: seq<Observation>): Stored
    decreases |history|
  {
    if history == [] then NoRow else Commit(Fold(history[..|history| - 1]), history[|history| - 1])
  }

  /** The executions of a history that were committed. */
  function Committed(history: seq<Observation>): seq<Observation>
    decreases |history|
  {
    if history == [] then []
    else
      var prefix, last := history[..|history| - 1], history[|history| - 1];
      if Accepts(Fold(prefix), last) then Committed(prefix) + [last] else Committed(prefix)
  }

  /** An execution that speaks, says something else than config_error, and either is a manual test or
      comes under another token than the commit before it, which the store does not adopt. */
  predicate Releases(history: seq<Observation>, m: int) {
    && 0 < m < |history|
    && !history[m].e.ignored && !IsConfigError(history[m].e)
    && (history[m].e.manual || (history[m].e.token != history[m - 1].e.token && !history[m].adopts))
  }

  predicate StuckSince(history: seq<Observation>, k: int) {
    && 0 <= k < |history| && !history[k].e.ignored && IsConfigError(history[k].e)
    && forall m :: k < m < |history| ==> !Releases(history, m)
  }

  ghost predicate Stuck(history: seq<Observation>) {
    exists k :: StuckSince(history, k)
  }

  /** How being stuck moves with one more commit. */
  lemma StuckStep(history: seq<Observation>, last: Observation)
    ensures Stuck(history + [last])
            <==> || (!last.e.ignored && IsConfigError(last.e))
                 || (Stuck(history) && !Releases(history + [last], |history|))
  {
    var more, n := history + [last], |history|;
    assert forall m :: 0 <= m < n ==> more[m] == history[m] && (Releases(more, m) <==> Releases(history, m));
    if !last.e.ignored && IsConfigError(last.e) {
      assert StuckSince(more, n);
    }
    if k :| StuckSince(history, k) {
      assert !Releases(more, n) ==> StuckSince(more, k);
    }
    if k :| StuckSince(more, k) {
      assert k == n || (StuckSince(history, k) && !Releases(more, n));
    }
  }

  /** Over any history, the row says config_error exactly when some committed execution concluded that
      and no later committed one released it. */
  lemma {:induction false} ConfigErrorSticks(history: seq<Observation>)
    ensures var stored, commits := Fold(history), Committed(history);
            && (stored.NoRow? <==> commits == [])
            && (stored.HasRow? ==> stored.row.token == commits[|commits| - 1].e.token)
            && (stored.HasRow? && stored.row.state.ConfigError? <==> Stuck(commits))
    decreases |history|
  {
    if history != [] {
      var prefix, last := history[..|history| - 1], history[|history| - 1];
      ConfigErrorSticks(prefix);
      StuckStep(Committed(prefix), last);
    }
  }

  /** A canceled probe under a new configuration carries the old error over: it changes nothing but
      the token, so the next ordinary probe no longer counts as a change of configuration. */
  lemma CanceledProbeCarriesErrorOver(bad: Observation, canceled: Observation, good: Observation)
    requires !bad.e.ignored && IsConfigError(bad.e) && canceled.e.ignored
    requires !good.e.ignored && good.e.conclusion == Concluded(Supported) && !good.e.manual
    requires bad.e.token != canceled.e.token == good.e.token && !canceled.adopts && !good.adopts
    ensures Fold([bad, good]).row.state.Supported? && Fold([bad, canceled, good]).row.state.ConfigError?
  {
    assert [bad, good][..1] == [bad] && [bad][..0] == [];
    assert [bad, canceled, good][..2] == [bad, canceled] && [bad, canceled][..1] == [bad];
    assert Fold([bad]).row.state.ConfigError?;
    assert Fold([bad, canceled]).row.state.ConfigError? && Fold([bad, canceled]).row.token == good.e.token;
  }
}
