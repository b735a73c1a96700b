/** Observation order numbers: blocks reserved in the database, handed out one by one, with the
    next block prefetched in the background while callers take, wait, or give up. */
module ObservationSequencer {

  const BLOCK_SIZE := 4096
  const LOW_WATER := 512

  /** The background goroutine: not running, before its reservation, or about to report it. */
  datatype Prefetch = Resting | Reserving | Reserved(start: int, end: int) | ReserveFailed

  /** `parked` callers block in cond.Wait; `woken` ones were signalled and will run again.
      `live` is the base context. */
  datatype Sequence = Sequence(next: int, end: int, pendingNext: int, pendingEnd: int, hasPending: bool,
                               prefetch: Prefetch, prefetchErr: bool, closed: bool, live: bool,
                               parked: set<nat>, woken: set<nat>)

  datatype Answer = Order(order: int) | Unavailable | ContextDone | PrefetchFailed | Parks

  predicate ValidBlock(start: int, end: int) {
    0 < start && start <= end && end - start + 1 == BLOCK_SIZE
  }

  function Broadcast(s: Sequence): Sequence {
    s.(parked := {}, woken := s.woken + s.parked)
  }

  function ArmIfIdle(s: Sequence): Sequence {
    if s.closed || !s.live || s.hasPending || !s.prefetch.Resting? then s else s.(prefetch := Reserving)
  }

  function TryTake(s: Sequence): (Sequence, Answer) {
    if s.next > s.end && !s.hasPending then (s, Unavailable)
    else
      var current := if s.next > s.end then
                       s.(next := s.pendingNext, end := s.pendingEnd, hasPending := false,
                          pendingNext := 0, pendingEnd := 0)
                     else s;
      var taken := current.(next := current.next + 1);
      (if taken.end - taken.next + 1 <= LOW_WATER then ArmIfIdle(taken) else taken, Order(current.next))
  }

  /** One pass of the loop in Next, from its check of the base context to a return or to Wait.
      `cut` says the base context was cancelled in the middle of the pass: it is not under the mutex. */
  function Pass(s: Sequence, caller: nat, traffic: bool, contextDone: bool, cut: bool): (Sequence, Answer) {
    var running := s.(woken := s.woken - {caller});
    if s.closed || !s.live then (running, Unavailable)
    else
      var (taken, answer) := TryTake(running.(live := !cut));
      if answer.Order? then (taken, answer)
      else if traffic then (ArmIfIdle(taken), Unavailable)
      else if contextDone then (taken, ContextDone)
      else if taken.prefetchErr && taken.prefetch.Resting? then
        (ArmIfIdle(taken.(prefetchErr := false)), PrefetchFailed)
      else
        var armed := if taken.prefetch.Resting? then ArmIfIdle(taken) else taken;
        (armed.(parked := armed.parked + {caller}), Parks)
  }

  /** The goroutine reports its reservation under the mutex. */
  function Report(s: Sequence): Sequence {
    var resting := s.(prefetch := Resting);
    if s.closed || !s.live then Broadcast(resting)
    else if s.prefetch.Reserved? && ValidBlock(s.prefetch.start, s.prefetch.end) && s.prefetch.start > s.end then
      Broadcast(resting.(pendingNext := s.prefetch.start, pendingEnd := s.prefetch.end, hasPending := true,
                         prefetchErr := false))
    else Broadcast(resting.(prefetchErr := true))
  }

  function OpenAt(start: int, end: int): Sequence {
    Sequence(start, end, 0, 0, false, Resting, false, false, true, {}, {})
  }

  // ---- The whole system: the database's high watermark, one process at a time, and all orders ever issued ----

  datatype Process = Stopped | Running(s: Sequence)

  /** `wasted` counts numbers reserved since the last start that can never be issued, and `base` is
      the watermark of that start less the orders issued before it. */
  datatype System = System(highWater: int, process: Process, issued: seq<int>, wasted: int, base: int)

  /** A reservation takes numbers above everything ever reserved; a good one takes the next block. */
  datatype Event =
    | Start(gap: nat, size: nat, reported: bool)
    | Ask(caller: nat, traffic: bool, contextDone: bool, cut: bool)
    | Reserve(gap: nat, size: nat, reported: bool)
    | ReserveNothing
    | Complete
    | ContextSignal
    | CancelBase
    | Close
    | Die

  predicate Enabled(sys: System, event: Event) {
    match event
    case Start(_, size, _) => sys.process.Stopped? && size > 0
    case Ask(caller, _, _, _) => sys.process.Running? && caller !in sys.process.s.parked
    case Reserve(_, size, _) => sys.process.Running? && sys.process.s.prefetch.Reserving? && size > 0
    case ReserveNothing => sys.process.Running? && sys.process.s.prefetch.Reserving?
    case Complete => sys.process.Running? && (sys.process.s.prefetch.Reserved? || sys.process.s.prefetch.ReserveFailed?)
    case ContextSignal => sys.process.Running?
    case CancelBase => sys.process.Running?
    case Close => sys.process.Running?
    case Die => sys.process.Running?
  }

  function Step(sys: System, event: Event): System {
    match event
    case Start(gap, size, reported) =>
      var start, end := sys.highWater + 1 + gap, sys.highWater + gap + size;
      System(end, if reported && ValidBlock(start, end) then Running(OpenAt(start, end)) else Stopped, sys.issued, 0,
             start - 1 - |sys.issued|)
    case Reserve(gap, size, reported) =>
      if !sys.process.Running? then sys
      else
        var start, end := sys.highWater + 1 + gap, sys.highWater + gap + size;
        sys.(highWater := end,
             wasted := sys.wasted + gap + if reported then 0 else size,
             process := Running(sys.process.s.(prefetch := if reported then Reserved(start, end) else ReserveFailed)))
    case ReserveNothing =>
      if !sys.process.Running? then sys
      else sys.(process := Running(sys.process.s.(prefetch := ReserveFailed)))
    case Ask(caller, traffic, contextDone, cut) =>
      if !sys.process.Running? then sys
      else
        var (s, answer) := Pass(sys.process.s, caller, traffic, contextDone, cut);
        sys.(process := Running(s), issued := if answer.Order? then sys.issued + [answer.order] else sys.issued)
    case Complete =>
      if !sys.process.Running? then sys
      else
        var s := Report(sys.process.s);
        sys.(process := Running(s),
             wasted := sys.wasted + if sys.process.s.prefetch.Reserved? && !s.hasPending
                                    then sys.process.s.prefetch.end - sys.process.s.prefetch.start + 1 else 0)
    case ContextSignal => if !sys.process.Running? then sys else sys.(process := Running(Broadcast(sys.process.s)))
    case CancelBase => if !sys.process.Running? then sys else sys.(process := Running(sys.process.s.(live := false)))
    case Close =>
      if !sys.process.Running? then sys else sys.(process := Running(Broadcast(sys.process.s.(closed := true))))
    case Die => sys.(process := Stopped)
  }

  predicate Increasing(orders: seq<int>) {
    forall i, j :: 0 <= i < j < |orders| ==> orders[i] < orders[j]
  }

  /** Blocks lie in order below the watermark, and never is a prefetch running beside a pending block. */
  predicate BlocksValid(s: Sequence, highWater: int) {
    && 0 < s.next <= s.end + 1 && s.end <= highWater
    && (s.hasPending ==> s.prefetch.Resting? && s.end < s.pendingNext <= s.pendingEnd <= highWater)
    && (s.prefetch.Reserved? ==> s.end < s.prefetch.start <= s.prefetch.end <= highWater)
  }

  /** While the base context is live, a blocked caller has a prefetch in flight to wake it. */
  predicate WaitersValid(s: Sequence) {
    s.parked != {} ==> !s.closed && (!s.prefetch.Resting? || !s.live)
  }

  predicate Valid(sys: System) {
    && Increasing(sys.issued)
    && sys.highWater >= 0
    && (forall i :: 0 <= i < |sys.issued| ==> sys.issued[i] <= sys.highWater)
    && (sys.process.Running? ==>
          && BlocksValid(sys.process.s, sys.highWater)
          && WaitersValid(sys.process.s)
          && forall i :: 0 <= i < |sys.issued| ==> sys.issued[i] < sys.process.s.next)
  }

  lemma PassKeepsValid(s: Sequence, highWater: int, caller: nat, traffic: bool, contextDone: bool, cut: bool)
    requires BlocksValid(s, highWater) && WaitersValid(s)
    ensures var (after, answer) := Pass(s, caller, traffic, contextDone, cut);
            && BlocksValid(after, highWater) && WaitersValid(after)
            && s.next <= after.next
            && (answer.Order? ==> s.next <= answer.order < after.next && answer.order <= highWater)
  {
  }

  lemma AskKeepsValid(sys: System, event: Event)
    requires Valid(sys) && Enabled(sys, event) && event.Ask?
    ensures Valid(Step(sys, event))
  {
    var s := sys.process.s;
    PassKeepsValid(s, sys.highWater, event.caller, event.traffic, event.contextDone, event.cut);
    var (after, answer) := Pass(s, event.caller, event.traffic, event.contextDone, event.cut);
    if answer.Order? {
      IssueIncreases(sys.issued, answer.order);
    }
  }

  lemma StepKeepsValid(sys: System, event: Event)
    requires Valid(sys) && Enabled(sys, event)
    ensures Valid(Step(sys, event))
  {
    match event {
      case Ask(_, _, _, _) => AskKeepsValid(sys, event);
      case Start(_, _, _) =>
      case Reserve(_, _, _) =>
      case ReserveNothing =>
      case Complete =>
      case ContextSignal =>
      case CancelBase =>
      case Close =>
      case Die =>
    }
  }

  lemma IssueIncreases(issued: seq<int>, order: int)
    requires Increasing(issued) && forall i :: 0 <= i < |issued| ==> issued[i] < order
    ensures Increasing(issued + [order])
  {
  }

  function Run(sys: System, events: seq<Event>): System
    decreases |events|
  {
    if events == [] then sys else Run(Step(sys, events[0]), events[1..])
  }

  predicate EnabledRun(sys: System, events: seq<Event>)
    decreases |events|
  {
    events == [] || (Enabled(sys, events[0]) && EnabledRun(Step(sys, events[0]), events[1..]))
  }

  /** Over every interleaving of callers, prefetches, failures, cancellation and Close, and across
      restarts and crashes, the orders issued so far only ever grow by larger numbers; and while
      the base context is live every blocked caller is waiting for a prefetch that is in flight. */
  lemma {:induction false} OrdersNeverRepeat(sys: System, events: seq<Event>)
    requires Valid(sys) && EnabledRun(sys, events)
    ensures var end := Run(sys, events);
            && Valid(end)
            && sys.issued <= end.issued
            && (forall i, j :: 0 <= i < j < |end.issued| ==> end.issued[i] < end.issued[j])
            && (end.process.Running? && end.process.s.live && end.process.s.parked != {} ==>
                  !end.process.s.prefetch.Resting?)
    decreases |events|
  {
    if events != [] {
      StepKeepsValid(sys, events[0]);
      OrdersNeverRepeat(Step(sys, events[0]), events[1..]);
    }
  }

  /** Exactly the cancellation of the base context inside a pass can leave a caller parked with
      nobody to wake it: with `cut` the arm is refused after the check at the top already passed. */
  lemma ParkedAloneIffCutInPass(s: Sequence, caller: nat, traffic: bool, contextDone: bool, cut: bool)
    requires !s.closed && s.live && s.parked == {}
    requires Pass(s, caller, traffic, contextDone, cut).1.Parks?
    ensures var (after, _) := Pass(s, caller, traffic, contextDone, cut);
            after.prefetch.Resting? <==> s.prefetch.Resting? && cut
  {
  }

  /** Every blocked caller has a prefetch in flight, whether or not the base context is live. */
  predicate Served(sys: System) {
    sys.process.Running? && sys.process.s.parked != {} ==> !sys.process.s.closed && !sys.process.s.prefetch.Resting?
  }

  /** That race is the only one: over every run in which no pass is cut, blocked callers always have a
      prefetch in flight, also after the base context ended. */
  lemma {:induction false} BlockedCallersAreServed(sys: System, events: seq<Event>)
    requires Valid(sys) && Served(sys) && EnabledRun(sys, events)
    requires forall i :: 0 <= i < |events| && events[i].Ask? ==> !events[i].cut
    ensures Served(Run(sys, events))
    decreases |events|
  {
    if events != [] {
      StepKeepsValid(sys, events[0]);
      StepKeepsServed(sys, events[0]);
      BlockedCallersAreServed(Step(sys, events[0]), events[1..]);
    }
  }

  lemma StepKeepsServed(sys: System, event: Event)
    requires Served(sys) && Enabled(sys, event) && (event.Ask? ==> !event.cut)
    ensures Served(Step(sys, event))
  {
  }

  // ---- How many numbers a crash can lose ----

  /** Numbers reserved and still issuable by the running process. */
  function Unissued(s: Sequence): int {
    (s.end - s.next + 1)
    + (if s.hasPending then s.pendingEnd - s.pendingNext + 1 else 0)
    + (if s.prefetch.Reserved? then s.prefetch.end - s.prefetch.start + 1 else 0)
  }

  /** Blocks have the agreed size, and a second one exists or is on its way only at low water. */
  predicate SizesValid(s: Sequence) {
    && s.end - s.next + 1 <= BLOCK_SIZE
    && (s.hasPending ==> s.pendingEnd - s.pendingNext + 1 == BLOCK_SIZE)
    && (s.prefetch.Reserved? ==> s.prefetch.end - s.prefetch.start + 1 == BLOCK_SIZE)
    && (s.hasPending || !s.prefetch.Resting? ==> s.end - s.next + 1 <= LOW_WATER)
  }

  /** Every number reserved since the start was issued, can still be issued, or is wasted. */
  predicate Accounted(sys: System) {
    sys.process.Running? ==>
      && SizesValid(sys.process.s)
      && sys.wasted >= 0
      && sys.highWater == sys.base + |sys.issued| + Unissued(sys.process.s) + sys.wasted
  }

  predicate BlockSized(event: Event) {
    (event.Start? ==> event.size == BLOCK_SIZE) && (event.Reserve? ==> event.size == BLOCK_SIZE)
  }

  /** Reservations that fail consume nothing, and a block starts right above the watermark. */
  predicate Frugal(event: Event) {
    event.Reserve? ==> event.gap == 0 && event.reported
  }

  lemma PassKeepsSizes(s: Sequence, highWater: int, caller: nat, traffic: bool, contextDone: bool, cut: bool)
    requires BlocksValid(s, highWater) && SizesValid(s)
    ensures var (after, answer) := Pass(s, caller, traffic, contextDone, cut);
            && SizesValid(after)
            && Unissued(s) == Unissued(after) + if answer.Order? then 1 else 0
  {
  }

  lemma StepKeepsAccounts(sys: System, event: Event)
    requires Valid(sys) && Accounted(sys) && Enabled(sys, event) && BlockSized(event)
    ensures Accounted(Step(sys, event))
  {
    match event {
      case Ask(caller, traffic, contextDone, cut) =>
        PassKeepsSizes(sys.process.s, sys.highWater, caller, traffic, contextDone, cut);
      case Start(_, _, _) =>
      case Reserve(_, _, _) =>
      case ReserveNothing =>
      case Complete =>
      case ContextSignal =>
      case CancelBase =>
      case Close =>
      case Die =>
    }
  }

  /** Numbers reserved since the start and not issued. */
  function Gap(sys: System): int {
    sys.highWater - sys.base - |sys.issued|
  }

  /** The gap is what the running process can still issue, never more than one block and the low-water
      mark, plus the wasted numbers. */
  lemma {:induction false} GapIsUnissuedOrWasted(sys: System, events: seq<Event>)
    requires Valid(sys) && Accounted(sys) && EnabledRun(sys, events)
    requires forall i :: 0 <= i < |events| ==> BlockSized(events[i])
    ensures var end := Run(sys, events);
            && Valid(end) && Accounted(end)
            && (end.process.Running? ==>
                  && Unissued(end.process.s) <= BLOCK_SIZE + LOW_WATER
                  && Gap(end) == Unissued(end.process.s) + end.wasted)
    decreases |events|
  {
    if events != [] {
      assert BlockSized(events[0]);
      StepKeepsValid(sys, events[0]);
      StepKeepsAccounts(sys, events[0]);
      GapIsUnissuedOrWasted(Step(sys, events[0]), events[1..]);
    }
  }

  predicate Open(sys: System) {
    sys.process.Running? && !sys.process.s.closed && sys.process.s.live
  }

  /** Nothing is wasted except the one block in flight when the sequencer is closed or its context
      ends, and that block replaces the pending one. */
  predicate Thrifty(sys: System) {
    if sys.process.Stopped? then Gap(sys) <= BLOCK_SIZE + LOW_WATER
    else
      var s := sys.process.s;
      || sys.wasted == 0
      || (&& !Open(sys) && s.prefetch.Resting? && !s.hasPending && sys.wasted == BLOCK_SIZE
          && s.end - s.next + 1 <= LOW_WATER)
  }

  lemma FrugalStepKeepsThrifty(sys: System, event: Event)
    requires Valid(sys) && Accounted(sys) && Enabled(sys, event) && BlockSized(event) && Frugal(event)
    requires Thrifty(sys)
    ensures Thrifty(Step(sys, event))
  {
  }

  /** When failed reservations consume nothing, the numbers reserved and not issued never exceed one
      block and the low-water mark, whether the process runs, is closed, lost its context, or died:
      that bounds the gap any shutdown or crash can leave. */
  lemma {:induction false} CrashGapIsBounded(sys: System, events: seq<Event>)
    requires Valid(sys) && Accounted(sys) && Thrifty(sys) && EnabledRun(sys, events)
    requires forall i :: 0 <= i < |events| ==> BlockSized(events[i]) && Frugal(events[i])
    ensures Thrifty(Run(sys, events)) && Gap(Run(sys, events)) <= BLOCK_SIZE + LOW_WATER
    decreases |events|
  {
    if events != [] {
      assert BlockSized(events[0]) && Frugal(events[0]);
      StepKeepsValid(sys, events[0]);
      StepKeepsAccounts(sys, events[0]);
      FrugalStepKeepsThrifty(sys, events[0]);
      CrashGapIsBounded(Step(sys, events[0]), events[1..]);
    }
  }

  /** An exhausted sequencer asked by real traffic while every reservation commits but reports failure. */
  function UnreportedReservations(k: nat): seq<Event> {
    if k == 0 then []
    else [Ask(0, true, false, false), Reserve(0, BLOCK_SIZE, false), Complete] + UnreportedReservations(k - 1)
  }

  /** Everything issued, nothing pending, nobody waiting. */
  predicate Drained(sys: System) {
    && Open(sys)
    && (var s := sys.process.s; s.next > s.end && !s.hasPending && s.prefetch.Resting? && s.parked == {})
  }

  lemma UnreportedRoundWastesBlock(sys: System)
    requires Valid(sys) && Drained(sys)
    ensures var asked := Step(sys, Ask(0, true, false, false));
            var reserved := Step(asked, Reserve(0, BLOCK_SIZE, false));
            var reported := Step(reserved, Complete);
            && Enabled(sys, Ask(0, true, false, false)) && Enabled(asked, Reserve(0, BLOCK_SIZE, false))
            && Enabled(reserved, Complete)
            && Valid(reported) && Drained(reported) && reported.wasted == sys.wasted + BLOCK_SIZE
  {
  }

  /** The bound needs failed reservations to consume nothing: each one that takes its block and
      reports an error wastes a whole block, without limit. */
  lemma {:induction false} UnreportedReservationsWasteBlocks(sys: System, k: nat)
    requires Valid(sys) && Drained(sys)
    ensures EnabledRun(sys, UnreportedReservations(k))
    ensures Run(sys, UnreportedReservations(k)).wasted == sys.wasted + k * BLOCK_SIZE
    decreases k
  {
    if k > 0 {
      var events := UnreportedReservations(k);
      UnreportedRoundWastesBlock(sys);
      var asked := Step(sys, events[0]);
      var reserved := Step(asked, events[1]);
      var reported := Step(reserved, events[2]);
      UnreportedReservationsWasteBlocks(reported, k - 1);
      assert events[1..][1..][1..] == UnreportedReservations(k - 1);
      assert Run(sys, events) == Run(asked, events[1..]);
      assert Run(asked, events[1..]) == Run(reserved, events[1..][1..]);
      assert Run(reserved, events[1..][1..]) == Run(reported, UnreportedReservations(k - 1));
    }
  }

  // ---- The sequencer object ----

  class Sequencer {
    var next: int
    var end: int
    var pendingNext: int
    var pendingEnd: int
    var hasPending: bool
    var prefetch: Prefetch
    var prefetchErr: bool
    var closed: bool
    var live: bool
    var parked: set<nat>
    var woken: set<nat>

    ghost function View(): Sequence
      reads this
    {
      Sequence(next, end, pendingNext, pendingEnd, hasPending, prefetch, prefetchErr, closed, live, parked, woken)
    }

    /** Opening needs a first valid block; `ok` is false when the caller must refuse to start. */
    constructor (start: int, last: int)
      requires ValidBlock(start, last)
      ensures View() == OpenAt(start, last)
    {
      next, end := start, last;
      pendingNext, pendingEnd, hasPending := 0, 0, false;
      prefetch, prefetchErr, closed, live := Resting, false, false, true;
      parked, woken := {}, {};
    }

    method SignalAll()
      modifies this`parked, this`woken
      ensures View() == Broadcast(old(View()))
    {
      woken := woken + parked;
      parked := {};
    }

    method CloseSequencer()
      modifies this
      ensures View() == Broadcast(old(View()).(closed := true))
    {
      closed := true;
      SignalAll();
    }

    method ArmIfIdleLocked()
      modifies this`prefetch
      ensures View() == ArmIfIdle(old(View()))
    {
      if closed || !live || hasPending || prefetch != Resting {
        return;
      }
      prefetch := Reserving;
    }

    method TryTakeLocked() returns (answer: Answer)
      modifies this
      ensures (View(), answer) == TryTake(old(View()))
    {
      if next > end {
        if !hasPending {
          return Unavailable;
        }
        next, end := pendingNext, pendingEnd;
        hasPending := false;
        pendingNext, pendingEnd := 0, 0;
      }
      var order := next;
      next := next + 1;
      if end - next + 1 <= LOW_WATER {
        ArmIfIdleLocked();
      }
      return Order(order);
    }

    /** One pass of the loop; the caller comes back with another pass after it is woken. */
    method NextPass(caller: nat, traffic: bool, contextDone: bool, cut: bool) returns (answer: Answer)
      modifies this
      ensures (View(), answer) == Pass(old(View()), caller, traffic, contextDone, cut)
    {
      woken := woken - {caller};
      if closed || !live {
        return Unavailable;
      }
      live := !cut;
      answer := TryTakeLocked();
      if answer.Order? {
        return;
      }
      if traffic {
        ArmIfIdleLocked();
        return Unavailable;
      }
      if contextDone {
        return ContextDone;
      }
      if prefetchErr && prefetch == Resting {
        prefetchErr := false;
        ArmIfIdleLocked();
        return PrefetchFailed;
      }
      if prefetch == Resting {
        ArmIfIdleLocked();
      }
      parked := parked + {caller};
      return Parks;
    }

    method ReportPrefetch()
      requires prefetch.Reserved? || prefetch.ReserveFailed?
      modifies this
      ensures View() == Report(old(View()))
    {
      var reserved := prefetch;
      prefetch := Resting;
      if closed || !live {
        SignalAll();
        return;
      }
      var ok := reserved.Reserved? && ValidBlock(reserved.start, reserved.end);
      if ok && reserved.start <= end {
        ok := false;
      }
      if !ok {
        prefetchErr := true;
      } else {
        pendingNext, pendingEnd, hasPending := reserved.start, reserved.end, true;
        prefetchErr := false;
      }
      SignalAll();
    }
  }
}
