/** One route's health row: verdicts applied to it and the L2 probe schedule kept in it. Times and
    durations are nanoseconds; a jitter factor is a real number. */
module RouteHealth {

  datatype HealthState = Unknown | Alive | Dead | Recovering
  datatype Verdict = OK | Fatal | Unavailable | RateLimited | Ignore
  datatype Source = L1 | L2 | RealTraffic
  datatype Instant = Never | At(t: int)

  const SECOND := 1_000_000_000
  const SHORT_DEAD_WINDOW := 600 * SECOND
  const MID_DEAD_WINDOW := 3600 * SECOND
  const DEAD_L2_SHORT := 30 * SECOND
  const DEAD_L2_MID := 120 * SECOND
  const DEAD_L2_LONG := 300 * SECOND
  const ALIVE_L2_FLOOR := 600 * SECOND

  datatype Settings = Settings(failThreshold: int, okThreshold: int, cooldownSec: int,
                               l2AliveSec: int, l2DeadSec: int, piggyback: bool)

  /** The settings fingerprint covers exactly the two thresholds and the cooldown. */
  datatype Policy = Policy(fail: int, ok: int, cooldown: int)

  function PolicyOf(s: Settings): Policy {
    Policy(s.failThreshold, s.okThreshold, s.cooldownSec)
  }

  /** The configuration identity a verdict was reached under, stamped with the policy it was counted under. */
  datatype Identity = NoIdentity | Identity(config: string, policy: Policy)
  datatype ReportedIdentity = Unbound | Bound(config: string)

  datatype Row = Row(generation: nat, state: HealthState, inFlight: int, okRun: int, failRun: int,
                     lastOKAt: Instant, lastErrAt: Instant, lastError: string, lastTTFT: int, lastReason: Verdict,
                     deadSince: Instant, cooldownUntil: Instant, identity: Identity, recoverySource: string,
                     lastRealOKAt: Instant, nextL1At: Instant, nextL2At: Instant)

  datatype Report = Report(routeID: int, verdict: Verdict, identity: ReportedIdentity, generation: nat,
                           source: Source, halfOpen: bool, err: string, ttft: int, retryAfter: int)

  function NewRow(generation: nat): Row {
    Row(generation, Unknown, 0, 0, 0, Never, Never, "", 0, OK, Never, Never, NoIdentity, "", Never, Never, Never)
  }

  function VerdictText(v: Verdict): string {
    match v
    case OK => "ok"
    case Fatal => "fatal"
    case Unavailable => "unavailable"
    case RateLimited => "rate_limited"
    case Ignore => "ignore"
  }

  /** Counters from another policy are not carried on: only leases and the schedule survive. */
  function Rebased(row: Row): Row {
    NewRow(row.generation).(inFlight := row.inFlight, nextL1At := row.nextL1At, nextL2At := row.nextL2At)
  }

  predicate NeedsRebase(row: Row, rep: Report, s: Settings) {
    !rep.verdict.Ignore? && rep.identity.Bound? && row.identity.Identity? && row.identity.policy != PolicyOf(s)
  }

  /** The state after a successful verdict, given the success run that includes it. */
  function StateAfterOK(state: HealthState, okRun: int, rep: Report, s: Settings): HealthState {
    match state
    case Dead => if !rep.halfOpen then Dead else if rep.source.RealTraffic? then Alive else Recovering
    case Recovering => if rep.source.RealTraffic? || okRun >= s.okThreshold then Alive else Recovering
    case Unknown => if rep.source.RealTraffic? || okRun >= s.okThreshold then Alive else Unknown
    case Alive => Alive
  }

  function NoteErr(row: Row, rep: Report, now: int): Row {
    row.(lastErrAt := At(now), lastReason := rep.verdict,
         lastError := if rep.err != "" then rep.err else VerdictText(rep.verdict))
  }

  function ApplyVerdict(row: Row, rep: Report, s: Settings, now: int): Row {
    match rep.verdict
    case Ignore => row
    case OK =>
      row.(failRun := 0, okRun := row.okRun + 1, lastOKAt := At(now), lastError := "", lastReason := OK,
           cooldownUntil := Never,
           lastTTFT := if rep.ttft > 0 then rep.ttft else row.lastTTFT,
           lastRealOKAt := if rep.source.RealTraffic? then At(now) else row.lastRealOKAt,
           state := StateAfterOK(row.state, row.okRun + 1, rep, s))
    case Fatal => NoteErr(row.(okRun := 0, failRun := row.failRun + 1, state := Dead), rep, now)
    case Unavailable =>
      NoteErr(row.(okRun := 0, failRun := row.failRun + 1,
                   state := if row.failRun + 1 >= s.failThreshold then Dead else row.state), rep, now)
    case RateLimited =>
      NoteErr(row.(failRun := 0,
                   cooldownUntil := At(now + if rep.retryAfter <= 0 then s.cooldownSec * SECOND else rep.retryAfter)),
                rep, now)
  }

  /** One verdict on one row, and whether the visible state changed. */
  function ReportRow(row: Row, rep: Report, s: Settings, now: int): (Row, bool) {
    if rep.verdict.Ignore? then (row, false)
    else
      var base := if NeedsRebase(row, rep, s) then Rebased(row) else row;
      var applied := ApplyVerdict(base, rep, s, now);
      var after := applied.(
        deadSince := if !applied.state.Dead? then Never else if !base.state.Dead? then At(now) else applied.deadSince,
        identity := if rep.identity.Bound? then Identity(rep.identity.config, PolicyOf(s)) else NoIdentity,
        recoverySource := "");
      (after, after.state != row.state)
  }

  // ---- L2 schedule ----

  function AliveL2Interval(s: Settings): int {
    if s.l2AliveSec <= 0 then ALIVE_L2_FLOOR else s.l2AliveSec * SECOND
  }

  /** The tier follows how long the route has been dead; the zero instant counts as long ago. */
  function DeadL2Interval(row: Row, s: Settings, now: Instant): int {
    if row.deadSince.Never? then (if s.l2DeadSec <= 0 then DEAD_L2_SHORT else s.l2DeadSec * SECOND)
    else if now.Never? || now.t - row.deadSince.t <= SHORT_DEAD_WINDOW then DEAD_L2_SHORT
    else if now.t - row.deadSince.t <= MID_DEAD_WINDOW then DEAD_L2_MID
    else DEAD_L2_LONG
  }

  function L2Interval(row: Row, s: Settings, now: Instant): int {
    match row.state
    case Dead => DeadL2Interval(row, s, now)
    case Alive => AliveL2Interval(s)
    case Unknown => 0
    case Recovering => 0
  }

  function ApplyJitter(base: int, factor: real): int {
    if base <= 0 || factor <= 0.0 then base
    else ((base as real) * (if factor < 0.9 then 0.9 else if factor > 1.1 then 1.1 else factor)).Floor
  }

  predicate Before(now: int, instant: Instant) {
    instant.At? && now < instant.t
  }

  /** Whether L2 is due, reserving the next one: claimed, skipped for a fresh real success, or not due. */
  function ClaimRow(row: Row, s: Settings, now: int, legacyPiggyback: bool): (Row, bool) {
    if Before(now, row.nextL2At) || Before(now, row.cooldownUntil) then (row, false)
    else
      var l2 := L2Interval(row, s, At(now));
      if legacyPiggyback && s.piggyback && !row.state.Dead? && row.lastRealOKAt.At? && now - row.lastRealOKAt.t < l2
      then (row.(nextL2At := At(row.lastRealOKAt.t + l2)), false)
      else (row.(nextL2At := At(now + l2)), true)
  }

  function CompleteRow(row: Row, s: Settings, completedAt: Instant, now: int, factor: real): Row {
    var at := if completedAt.Never? then now else completedAt.t;
    row.(nextL2At := At(at + ApplyJitter(L2Interval(row, s, completedAt), factor)))
  }
}
