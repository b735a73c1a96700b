/** Auth calibration: stored runs and candidates, the worker's pass over them, and sending each
    candidate at most once across errors, deaths and restarts. */
module Calibration {

  datatype CandidateState = Planned | Prepared | SendStarted | Finished | Indeterminate
  datatype RunState = RunPlanned | Running | Succeeded | FailedRun | Canceled | Interrupted
  datatype Disposition = Stop | TryNextAuth | TryNextShape

  /** `executionID` and the recipe `version` are assigned when the candidate is prepared; empty and 0 before. */
  datatype Candidate = Candidate(state: CandidateState, executionID: string, version: int, disposition: Disposition)
  datatype RunRow = RunRow(state: RunState, current: int, candidates: seq<Candidate>, revision: int)

  /** `config` numbers the configuration a request was built from: endpoint, credentials, route, model,
      settings and secrets. */
  datatype Execution = Execution(ordinal: int, success: bool, disposition: Disposition, version: int, config: int)
  datatype Publication = Publication(ordinal: int, version: int, config: int)

  /** `sent` lists the ordinals handed to the executor, in order; `config` is the configuration in force,
      a new number after every change; `configError` is the verdict of an exhausted calibration. */
  datatype Db = Db(run: RunRow, executions: map<string, Execution>, sent: seq<int>,
                   config: int, configError: bool, published: seq<Publication>)

  datatype Outcome = Done | Failed | Crashed

  predicate InRange(run: RunRow, ordinal: int) {
    0 <= ordinal < |run.candidates|
  }

  // ---- Store transactions, all conditional on the run's revision ----

  datatype Tx =
    | Start(revision: int)
    | Prepare(ordinal: int, revision: int, id: string, version: int)
    | MarkSendStarted(ordinal: int, id: string, revision: int)
    | Interrupt(ordinal: int, revision: int)
    | Advance(ordinal: int, id: string, revision: int)
    | CommitSuccess(ordinal: int, id: string, revision: int, version: int, expected: int, recipeCurrent: bool)
    | Finish(state: RunState, revision: int)
    | Edit

  function SetRun(db: Db, run: RunRow): Db {
    db.(run := run.(revision := db.run.revision + 1))
  }

  function SetCandidate(run: RunRow, ordinal: int, c: Candidate): RunRow
    requires InRange(run, ordinal)
  {
    run.(candidates := run.candidates[ordinal := c])
  }

  /** The lowest planned ordinal from `from` on, or -1. */
  function NextPlanned(candidates: seq<Candidate>, from: nat): int
    decreases |candidates| - from
  {
    if from >= |candidates| then -1
    else if candidates[from].state.Planned? then from
    else NextPlanned(candidates, from + 1)
  }

  function PrepareTx(db: Db, ordinal: int, revision: int, id: string, version: int): (Db, bool) {
    var run := db.run;
    if !run.state.Running? || run.revision != revision || run.current != ordinal || !InRange(run, ordinal)
    then (db, false)
    else
      var c := run.candidates[ordinal];
      if !c.state.Planned? then (db, c.version > 0)
      else
        var prepared := c.(state := Prepared, executionID := id, version := version);
        (SetRun(db, SetCandidate(run, ordinal, prepared)), true)
  }

  function MarkTx(db: Db, ordinal: int, id: string, revision: int): (Db, bool) {
    var run := db.run;
    if run.revision != revision || !run.state.Running? || !InRange(run, ordinal) then (db, false)
    else
      var c := run.candidates[ordinal];
      if c.state.SendStarted? then (db, c.executionID == id)
      else if !c.state.Prepared? || c.executionID == "" || c.executionID != id then (db, false)
      else (SetRun(db, SetCandidate(run, ordinal, c.(state := SendStarted))), true)
  }

  function InterruptTx(db: Db, ordinal: int, revision: int): (Db, bool) {
    var run := db.run;
    if run.revision != revision || !InRange(run, ordinal) then (db, false)
    else
      var c := run.candidates[ordinal];
      if c.state.Indeterminate? && run.state.Interrupted? then (db, true)
      else if !run.state.Running? || !c.state.SendStarted? then (db, false)
      else
        var lost := c.(state := Indeterminate, disposition := Stop);
        (SetRun(db, SetCandidate(run, ordinal, lost).(state := Interrupted)), true)
  }

  predicate AllRejected(candidates: seq<Candidate>) {
    forall i :: 0 <= i < |candidates| ==> candidates[i].state.Finished? && candidates[i].disposition.TryNextAuth?
  }

  function AdvanceTx(db: Db, ordinal: int, id: string, revision: int): (Db, bool) {
    var run := db.run;
    if run.revision != revision then (db, false)
    else if !run.state.Running? then (db, true)
    else if !InRange(run, ordinal) then (db, false)
    else
      var c := run.candidates[ordinal];
      if c.state.Finished? then (db, true)
      else if id !in db.executions || db.executions[id].ordinal != ordinal then (db, false)
      else if c.executionID == "" || c.executionID != id then (db, false)
      else if c.version > 0 && db.executions[id].version != c.version then (db, false)
      else if !c.state.SendStarted? && !c.state.Prepared? then (db, false)
      else (Advanced(db, ordinal, db.executions[id].disposition), true)
  }

  /** The next planned candidate, if the disposition allows one; else the run fails, with a config_error
      only when every single candidate was refused for its authentication. */
  function Advanced(db: Db, ordinal: int, disposition: Disposition): Db
    requires InRange(db.run, ordinal)
  {
    var c := db.run.candidates[ordinal];
    var finished := SetCandidate(db.run, ordinal, c.(state := Finished, disposition := disposition));
    var following := if disposition.Stop? then -1 else NextPlanned(finished.candidates, ordinal + 1);
    if following >= 0 then SetRun(db, finished.(current := following))
    else
      var exhausted := disposition.TryNextAuth? && AllRejected(finished.candidates);
      SetRun(db, finished.(state := FailedRun)).(configError := db.configError || exhausted)
  }

  /** Publishing needs the stored success of this candidate and version, under the configuration still
      in force; it changes the configuration itself. `recipeCurrent` is the check of the recipe row. */
  function CommitSuccessTx(db: Db, ordinal: int, id: string, revision: int, version: int, expected: int,
                           recipeCurrent: bool): (Db, bool) {
    var run := db.run;
    if version < 1 || run.revision != revision then (db, false)
    else if run.state.Succeeded? then (db, true)
    else if !run.state.Running? || !InRange(run, ordinal) || run.candidates[ordinal].version != version then (db, false)
    else if id !in db.executions || !db.executions[id].success then (db, false)
    else
      var e := db.executions[id];
      if e.version != version || e.ordinal != ordinal || db.config != expected || db.config != e.config then (db, false)
      else if !recipeCurrent then (db, false)
      else
        var finished := run.candidates[ordinal].(state := Finished, executionID := id, disposition := Stop);
        var after := SetRun(db, SetCandidate(run, ordinal, finished).(state := Succeeded));
        (after.(config := db.config + 1, published := db.published + [Publication(ordinal, version, db.config)]), true)
  }

  function FinishTx(db: Db, state: RunState, revision: int): (Db, bool) {
    if !state.FailedRun? && !state.Canceled? && !state.Interrupted? then (db, false)
    else if db.run.revision == revision && (db.run.state.RunPlanned? || db.run.state.Running?) then
      (SetRun(db, db.run.(state := state)), true)
    else (db, db.run.state == state)
  }

  function StartTx(db: Db, revision: int): (Db, bool) {
    if db.run.revision == revision && (db.run.state.RunPlanned? || db.run.state.Running?)
    then (SetRun(db, db.run.(state := Running)), true)
    else (db, db.run.state.Running? && db.run.revision == revision + 1)
  }

  function Transact(db: Db, tx: Tx): (Db, bool) {
    match tx
    case Start(revision) => StartTx(db, revision)
    case Prepare(ordinal, revision, id, version) => PrepareTx(db, ordinal, revision, id, version)
    case MarkSendStarted(ordinal, id, revision) => MarkTx(db, ordinal, id, revision)
    case Interrupt(ordinal, revision) => InterruptTx(db, ordinal, revision)
    case Advance(ordinal, id, revision) => AdvanceTx(db, ordinal, id, revision)
    case CommitSuccess(ordinal, id, revision, version, expected, recipeCurrent) =>
      CommitSuccessTx(db, ordinal, id, revision, version, expected, recipeCurrent)
    case Finish(state, revision) => FinishTx(db, state, revision)
    case Edit => (db.(config := db.config + 1), true)
  }

  // ---- Store calls of the worker ----

  /** What others do before the call takes effect, and how the call ends: a commit may be reported
      as an error, and the process may die before or after it. */
  datatype Effect = Works | Fails | FailsCommitted | Dies | DiesCommitted
  datatype Call = Call(before: seq<Tx>, effect: Effect)

  function Interfere(db: Db, txs: seq<Tx>): Db
    decreases |txs|
  {
    if txs == [] then db else Transact(Interfere(db, txs[..|txs| - 1]), txs[|txs| - 1]).0
  }

  function Write(db: Db, tx: Tx, call: Call): (Db, Outcome) {
    var found := Interfere(db, call.before);
    var (after, ok) := Transact(found, tx);
    match call.effect
    case Works => (after, if ok then Done else Failed)
    case Fails => (found, Failed)
    case Dies => (found, Crashed)
    case FailsCommitted => (after, Failed)
    case DiesCommitted => (after, Crashed)
  }

  function ReadRun(db: Db, call: Call): (Db, Outcome) {
    (Interfere(db, call.before),
     match call.effect
     case Works => Done
     case Fails => Failed
     case FailsCommitted => Failed
     case Dies => Crashed
     case DiesCommitted => Crashed)
  }

  // ---- The worker ----

  datatype Target = Enabled | Disabled | Unreadable | DeadThere
  datatype Gathering = Gathered | Missing | DeadGathering

  /** How the executor ends: whether the execution was stored, and an error or death after that. */
  datatype Sending = Sending(stored: bool, success: bool, disposition: Disposition, outcome: Outcome)

  datatype Plan = Plan(
    list: Call, wait: seq<Tx>, prepare: Call, id: string, version: int, readPrepared: Call, target: Target,
    refuse: Call, mark: Call, readMarked: Call, contextDone: bool, readCancel: Call, targetAgain: Target,
    assembled: Gathering, sending: Sending, readExecuted: Call, lookup: Call, interrupt: Call, readFinal: Call,
    gathered: Gathering, recipeCurrent: bool, finish: Call)

  function Refuse(db: Db, revision: int, p: Plan): (Db, Outcome) {
    var (after, outcome) := Write(db, Finish(FailedRun, revision), p.refuse);
    (after, if outcome.Crashed? then Crashed else Failed)
  }

  /** A success is committed under the configuration frozen in its execution, where it has one. */
  function Closing(db: Db, id: string, e: Execution, p: Plan): Tx {
    var run := db.run;
    if e.success then
      CommitSuccess(run.current, id, run.revision,
                    if InRange(run, run.current) then run.candidates[run.current].version else 0,
                    if e.config >= 1 then e.config else db.config, p.recipeCurrent)
    else Advance(run.current, id, run.revision)
  }

  function FinishFromExecution(db: Db, id: string, e: Execution, p: Plan): (Db, Outcome) {
    var (seen, outcome) := ReadRun(db, p.readFinal);
    if !outcome.Done? then (seen, outcome)
    else if !seen.run.state.Running? then (seen, Done)
    else if e.success && p.gathered.Missing? then (seen, Failed)
    else if e.success && p.gathered.DeadGathering? then (seen, Crashed)
    else Write(seen, Closing(seen, id, e, p), p.finish)
  }

  /** The executor is reached: from here on a request may be on the wire. */
  function Send(db: Db, id: string, p: Plan): (Db, Outcome)
    requires InRange(db.run, db.run.current)
  {
    var s := p.sending;
    var e := Execution(db.run.current, s.success, s.disposition, db.run.candidates[db.run.current].version, db.config);
    var reached := db.(sent := db.sent + [db.run.current]);
    var stored := if s.stored then reached.(executions := reached.executions[id := e]) else reached;
    if !s.outcome.Done? then (stored, s.outcome)
    else
      var (seen, outcome) := ReadRun(stored, p.readExecuted);
      if !outcome.Done? then (seen, outcome) else FinishFromExecution(seen, id, e, p)
  }

  /** An index out of range ends the process. */
  function Proceed(db: Db, id: string, p: Plan): (Db, Outcome) {
    if p.contextDone then (db, Failed)
    else
      var (seen, outcome) := ReadRun(db, p.readCancel);
      if !outcome.Done? then (seen, outcome)
      else if seen.run.state.Canceled? then (seen, Done)
      else if !InRange(seen.run, seen.run.current) then (seen, Crashed)
      else match p.targetAgain
        case Unreadable => (seen, Failed)
        case DeadThere => (seen, Crashed)
        case Disabled => Refuse(seen, seen.run.revision, p)
        case Enabled =>
          match p.assembled
          case Missing => (seen, Failed)
          case DeadGathering => (seen, Crashed)
          case Gathered => Send(seen, id, p)
  }

  /** `run` is what the worker read last; the database may have moved on. */
  function SendCandidate(db: Db, run: RunRow, p: Plan): (Db, Outcome) {
    if !InRange(run, run.current) then (db, Crashed)
    else
      var c := run.candidates[run.current];
      if c.executionID == "" then (db, Failed)
      else match p.target
        case Unreadable => (db, Failed)
        case DeadThere => (db, Crashed)
        case Disabled => Refuse(db, run.revision, p)
        case Enabled =>
          if !c.state.Prepared? then Proceed(db, c.executionID, p)
          else
            var (marked, outcome) := Write(db, MarkSendStarted(run.current, c.executionID, run.revision), p.mark);
            if !outcome.Done? then (marked, outcome)
            else
              var (seen, readOutcome) := ReadRun(marked, p.readMarked);
              if !readOutcome.Done? then (seen, readOutcome) else Proceed(seen, c.executionID, p)
  }

  function PrepareAndContinue(db: Db, run: RunRow, p: Plan): (Db, Outcome) {
    var (prepared, outcome) := Write(db, Prepare(run.current, run.revision, p.id, p.version), p.prepare);
    if !outcome.Done? then (prepared, outcome)
    else
      var (seen, readOutcome) := ReadRun(prepared, p.readPrepared);
      if !readOutcome.Done? then (seen, readOutcome) else SendCandidate(seen, seen.run, p)
  }

  function RecoverSendStarted(db: Db, run: RunRow, id: string, p: Plan): (Db, Outcome) {
    if id == "" then (db, Failed)
    else
      var (seen, outcome) := ReadRun(db, p.lookup);
      if !outcome.Done? then (seen, outcome)
      else if id in seen.executions then FinishFromExecution(seen, id, seen.executions[id], p)
      else Write(seen, Interrupt(run.current, run.revision), p.interrupt)
  }

  function AdvanceRun(db: Db, run: RunRow, p: Plan): (Db, Outcome) {
    if !run.state.Running? then (db, Done)
    else if !InRange(run, run.current) then Write(db, Finish(FailedRun, run.revision), p.refuse)
    else
      var c := run.candidates[run.current];
      match c.state
      case Planned => PrepareAndContinue(db, run, p)
      case Prepared => SendCandidate(db, run, p)
      case SendStarted => RecoverSendStarted(db, run, c.executionID, p)
      case Finished => (db, Done)
      case Indeterminate => (db, Done)
  }

  /** One pass: list the running runs, and advance this one after some wait. */
  function Pass(db: Db, p: Plan): (Db, Outcome) {
    var (listed, outcome) := ReadRun(db, p.list);
    if !outcome.Done? then (listed, outcome)
    else AdvanceRun(Interfere(listed, p.wait), listed.run, p)
  }

  // ---- Runs: any passes, each of them cut short anywhere, and any requests of operators ----

  datatype Event = DoPass(p: Plan) | Request(tx: Tx)

  function Step(db: Db, event: Event): Db {
    match event
    case DoPass(p) => Pass(db, p).0
    case Request(tx) => Transact(db, tx).0
  }

  function RunAll(db: Db, events: seq<Event>): Db
    decreases |events|
  {
    if events == [] then db else RunAll(Step(db, events[0]), events[1..])
  }

  /** Operators start and cancel runs and edit the configuration; everything else is up to the one worker. */
  predicate Operator(tx: Tx) {
    tx.Start? || (tx.Finish? && tx.state.Canceled?) || tx.Edit?
  }

  predicate Operators(txs: seq<Tx>) {
    forall i :: 0 <= i < |txs| ==> Operator(txs[i])
  }

  predicate SingleWorker(p: Plan) {
    && Operators(p.list.before) && Operators(p.wait) && Operators(p.prepare.before) && Operators(p.readPrepared.before)
    && Operators(p.refuse.before) && Operators(p.mark.before) && Operators(p.readMarked.before)
    && Operators(p.readCancel.before) && Operators(p.readExecuted.before) && Operators(p.lookup.before)
    && Operators(p.interrupt.before) && Operators(p.readFinal.before) && Operators(p.finish.before)
    && p.id != ""
  }

  predicate Expected(event: Event) {
    match event
    case DoPass(p) => SingleWorker(p)
    case Request(tx) => Operator(tx)
  }

  predicate Unsent(state: CandidateState) {
    state.Planned? || state.Prepared?
  }

  predicate Terminal(run: RunRow) {
    !run.state.RunPlanned? && !run.state.Running?
  }

  /** Candidates are worked through in order, and a candidate handed to the executor is durably
      past "prepared". */
  predicate Valid(db: Db) {
    && InRange(db.run, db.run.current)
    && (forall j :: db.run.current < j < |db.run.candidates| ==> db.run.candidates[j].state.Planned?)
    && (forall j :: 0 <= j < db.run.current ==> db.run.candidates[j].state.Finished?)
    && (forall i, j :: 0 <= i < j < |db.sent| ==> db.sent[i] < db.sent[j])
    && (forall i :: 0 <= i < |db.sent| ==> 0 <= db.sent[i] <= db.run.current)
    && (Unsent(db.run.candidates[db.run.current].state) ==> db.run.current !in db.sent)
  }

  /** A publication repeats a stored success of its candidate: same version, same configuration. */
  predicate Tested(db: Db, p: Publication) {
    && InRange(db.run, p.ordinal) && p.version > 0
    && var id := db.run.candidates[p.ordinal].executionID;
    && id in db.executions && db.executions[id].success && db.executions[id].ordinal == p.ordinal
    && db.executions[id].version == p.version == db.run.candidates[p.ordinal].version
    && db.executions[id].config == p.config
  }

  /** What was concluded rests on what was sent. */
  predicate Evidenced(db: Db) {
    && InRange(db.run, db.run.current)
    && (forall id :: id in db.executions ==> db.executions[id].ordinal in db.sent)
    && (forall j :: 0 <= j < |db.run.candidates| && db.run.candidates[j].state.Finished? ==> j in db.sent)
    && (db.configError ==> db.run.state.FailedRun? && AllRejected(db.run.candidates))
    && (db.published != [] ==>
          && |db.published| == 1 && db.run.state.Succeeded? && db.published[0].ordinal == db.run.current
          && db.run.candidates[db.run.current].state.Finished? && Tested(db, db.published[0]))
  }

  predicate Sound(db: Db) {
    Valid(db) && Evidenced(db)
  }

  /** What operators cannot change: the candidates, what was executed and concluded, and ended runs. */
  predicate SameWork(before: Db, after: Db) {
    && before.run.candidates == after.run.candidates && before.run.current == after.run.current
    && before.executions == after.executions && before.sent == after.sent
    && before.configError == after.configError && before.published == after.published
    && (Terminal(before.run) ==> before.run == after.run)
  }

  lemma {:induction false} OperatorsKeepWork(db: Db, txs: seq<Tx>)
    requires Operators(txs)
    ensures SameWork(db, Interfere(db, txs))
    decreases |txs|
  {
    if txs != [] {
      var prefix := txs[..|txs| - 1];
      assert forall i :: 0 <= i < |prefix| ==> prefix[i] == txs[i];
      OperatorsKeepWork(db, prefix);
      assert Operator(txs[|txs| - 1]);
    }
  }

  lemma SameWorkKeepsSound(a: Db, b: Db)
    requires Sound(a) && SameWork(a, b)
    ensures Sound(b)
  {
  }

  lemma InterferenceKeepsSound(db: Db, txs: seq<Tx>)
    requires Sound(db) && Operators(txs)
    ensures Sound(Interfere(db, txs)) && SameWork(db, Interfere(db, txs))
  {
    OperatorsKeepWork(db, txs);
    SameWorkKeepsSound(db, Interfere(db, txs));
  }

  lemma {:induction false} NextPlannedIsFirst(candidates: seq<Candidate>, from: nat)
    ensures var n := NextPlanned(candidates, from);
            && (n == -1 || (from <= n < |candidates| && candidates[n].state.Planned?))
            && (from < |candidates| && candidates[from].state.Planned? ==> n == from)
    decreases |candidates| - from
  {
    if from < |candidates| && !candidates[from].state.Planned? {
      NextPlannedIsFirst(candidates, from + 1);
    }
  }

  /** Advancing past a sent candidate moves to the next one or ends the run. */
  lemma AdvancedKeepsSound(db: Db, disposition: Disposition)
    requires Sound(db) && db.run.current in db.sent && !Terminal(db.run)
    ensures Sound(Advanced(db, db.run.current, disposition))
    ensures Advanced(db, db.run.current, disposition).sent == db.sent
  {
    var o := db.run.current;
    var finished := db.run.candidates[o := db.run.candidates[o].(state := Finished, disposition := disposition)];
    NextPlannedIsFirst(finished, o + 1);
    if o + 1 < |finished| {
      assert finished[o + 1].state.Planned?;
    }
    assert NextPlanned(finished, o + 1) in {-1, o + 1};
  }

  lemma CommitKeepsSound(db: Db, id: string, revision: int, version: int, expected: int, recipeCurrent: bool)
    requires Sound(db)
    ensures var after := CommitSuccessTx(db, db.run.current, id, revision, version, expected, recipeCurrent).0;
            Sound(after) && after.sent == db.sent
  {
  }

  lemma InterruptKeepsSound(db: Db, revision: int)
    requires Sound(db)
    ensures var after := InterruptTx(db, db.run.current, revision).0; Sound(after) && after.sent == db.sent
  {
  }

  /** The closing transactions keep the order and never touch what was sent. */
  lemma ClosingKeepsSound(db: Db, tx: Tx)
    requires Sound(db)
    requires tx.Finish? || ((tx.Interrupt? || tx.Advance? || tx.CommitSuccess?) && tx.ordinal == db.run.current)
    ensures Sound(Transact(db, tx).0) && Transact(db, tx).0.sent == db.sent
  {
    match tx
    case Interrupt(_, revision) => InterruptKeepsSound(db, revision);
    case CommitSuccess(_, id, revision, version, expected, recipeCurrent) =>
      CommitKeepsSound(db, id, revision, version, expected, recipeCurrent);
    case Advance(_, id, _) =>
      if Transact(db, tx).0 != db {
        AdvancedKeepsSound(db, db.executions[id].disposition);
      }
    case Finish(_, _) =>
  }

  lemma WriteKeepsSound(db: Db, tx: Tx, call: Call)
    requires Sound(db) && Operators(call.before)
    requires tx.Finish? || ((tx.Interrupt? || tx.Advance? || tx.CommitSuccess?) && tx.ordinal == db.run.current)
    ensures Sound(Write(db, tx, call).0) && Write(db, tx, call).0.sent == db.sent
  {
    var found := Interfere(db, call.before);
    InterferenceKeepsSound(db, call.before);
    ClosingKeepsSound(found, tx);
    assert Write(db, tx, call).0 in {found, Transact(found, tx).0};
  }

  lemma FinishKeepsSound(db: Db, id: string, e: Execution, p: Plan)
    requires Sound(db) && SingleWorker(p)
    ensures var after := FinishFromExecution(db, id, e, p).0; Sound(after) && after.sent == db.sent
  {
    var (seen, outcome) := ReadRun(db, p.readFinal);
    InterferenceKeepsSound(db, p.readFinal.before);
    WriteKeepsSound(seen, Closing(seen, id, e, p), p.finish);
  }

  /** The current candidate is durably marked and has not been handed over. */
  predicate Ready(db: Db) {
    Sound(db) && db.run.candidates[db.run.current].state.SendStarted? && db.run.current !in db.sent
  }

  lemma ReachingKeepsSound(db: Db, id: string, e: Execution, stored: bool)
    requires Ready(db) && e.ordinal == db.run.current
    ensures var executions := if stored then db.executions[id := e] else db.executions;
            Sound(db.(sent := db.sent + [db.run.current], executions := executions))
  {
    var executions := if stored then db.executions[id := e] else db.executions;
    var after := db.(sent := db.sent + [db.run.current], executions := executions);
    forall i | 0 <= i < |db.sent| ensures db.sent[i] < db.run.current {
      assert db.sent[i] in db.sent;
    }
    assert forall o :: o in db.sent ==> o in after.sent;
    assert db.run.current in after.sent;
  }

  lemma SendKeepsSound(db: Db, id: string, p: Plan)
    requires Ready(db) && SingleWorker(p)
    ensures var after := Send(db, id, p).0; Sound(after) && after.sent == db.sent + [db.run.current]
  {
    var s := p.sending;
    var e := Execution(db.run.current, s.success, s.disposition, db.run.candidates[db.run.current].version, db.config);
    var executions := if s.stored then db.executions[id := e] else db.executions;
    var stored := db.(sent := db.sent + [db.run.current], executions := executions);
    ReachingKeepsSound(db, id, e, s.stored);
    if s.outcome.Done? {
      InterferenceKeepsSound(stored, p.readExecuted.before);
      FinishKeepsSound(ReadRun(stored, p.readExecuted).0, id, e, p);
    }
  }

  lemma ProceedKeepsSound(db: Db, id: string, p: Plan)
    requires Ready(db) && SingleWorker(p)
    ensures var after := Proceed(db, id, p).0; Sound(after) && after.sent in {db.sent, db.sent + [db.run.current]}
  {
    var (seen, outcome) := ReadRun(db, p.readCancel);
    InterferenceKeepsSound(db, p.readCancel.before);
    WriteKeepsSound(seen, Finish(FailedRun, seen.run.revision), p.refuse);
    SendKeepsSound(seen, id, p);
  }

  /** Marking the prepared current candidate: whatever is reported, the order is kept, and success
      means the mark is in the database before anything is sent. */
  lemma MarkMakesReady(db: Db, id: string, revision: int, call: Call)
    requires Sound(db) && Operators(call.before) && db.run.candidates[db.run.current].state.Prepared?
    ensures var (after, outcome) := Write(db, MarkSendStarted(db.run.current, id, revision), call);
            && Sound(after) && after.sent == db.sent && after.run.current == db.run.current
            && (outcome.Done? ==> Ready(after))
  {
    InterferenceKeepsSound(db, call.before);
    MarkKeepsSound(Interfere(db, call.before), id, revision);
  }

  lemma MarkKeepsSound(db: Db, id: string, revision: int)
    requires Sound(db) && db.run.candidates[db.run.current].state.Prepared?
    ensures var (after, ok) := MarkTx(db, db.run.current, id, revision);
            && Sound(after) && after.sent == db.sent && after.run.current == db.run.current && (ok ==> Ready(after))
  {
  }

  lemma SendCandidateKeepsSound(db: Db, run: RunRow, p: Plan)
    requires Sound(db) && SingleWorker(p)
    requires run.candidates == db.run.candidates && run.current == db.run.current
    requires run.candidates[run.current].state.Prepared?
    ensures var after := SendCandidate(db, run, p).0;
            Sound(after) && after.sent in {db.sent, db.sent + [db.run.current]}
  {
    var c := run.candidates[run.current];
    WriteKeepsSound(db, Finish(FailedRun, run.revision), p.refuse);
    MarkMakesReady(db, c.executionID, run.revision, p.mark);
    var (marked, outcome) := Write(db, MarkSendStarted(run.current, c.executionID, run.revision), p.mark);
    if outcome.Done? {
      MarkedKeepsSound(marked, c.executionID, p);
    }
  }

  /** After the mark: read it back, then send or refuse. */
  lemma MarkedKeepsSound(db: Db, id: string, p: Plan)
    requires Ready(db) && SingleWorker(p)
    ensures var (seen, outcome) := ReadRun(db, p.readMarked);
            && Sound(seen) && seen.sent == db.sent
            && (outcome.Done? ==>
                  var after := Proceed(seen, id, p).0;
                  Sound(after) && after.sent in {db.sent, db.sent + [db.run.current]})
  {
    InterferenceKeepsSound(db, p.readMarked.before);
    ProceedKeepsSound(ReadRun(db, p.readMarked).0, id, p);
  }

  lemma PrepareMakesPrepared(db: Db, revision: int, id: string, version: int, call: Call)
    requires Sound(db) && Operators(call.before) && db.run.candidates[db.run.current].state.Planned?
    ensures var (after, outcome) := Write(db, Prepare(db.run.current, revision, id, version), call);
            && Sound(after) && after.sent == db.sent && after.run.current == db.run.current
            && (outcome.Done? ==> after.run.candidates[after.run.current].state.Prepared?)
  {
    InterferenceKeepsSound(db, call.before);
    PrepareKeepsOrder(Interfere(db, call.before), revision, id, version);
  }

  lemma PrepareKeepsOrder(db: Db, revision: int, id: string, version: int)
    requires Sound(db) && db.run.candidates[db.run.current].state.Planned?
    ensures var (after, ok) := PrepareTx(db, db.run.current, revision, id, version);
            && Sound(after) && after.sent == db.sent && after.run.current == db.run.current
            && (ok ==> after.run.candidates[after.run.current].state.Prepared?)
  {
  }

  lemma PrepareKeepsSound(db: Db, run: RunRow, p: Plan)
    requires Sound(db) && SingleWorker(p)
    requires run.candidates == db.run.candidates && run.current == db.run.current
    requires run.candidates[run.current].state.Planned?
    ensures var after := PrepareAndContinue(db, run, p).0;
            Sound(after) && after.sent in {db.sent, db.sent + [db.run.current]}
  {
    PrepareMakesPrepared(db, run.revision, p.id, p.version, p.prepare);
    var (prepared, outcome) := Write(db, Prepare(run.current, run.revision, p.id, p.version), p.prepare);
    if outcome.Done? {
      InterferenceKeepsSound(prepared, p.readPrepared.before);
      var (seen, _) := ReadRun(prepared, p.readPrepared);
      SendCandidateKeepsSound(seen, seen.run, p);
    }
  }

  lemma AdvanceRunKeepsSound(db: Db, run: RunRow, p: Plan)
    requires Sound(db) && SingleWorker(p)
    requires run.candidates == db.run.candidates && run.current == db.run.current
    ensures var after := AdvanceRun(db, run, p).0;
            && Sound(after) && after.sent in {db.sent, db.sent + [db.run.current]}
            && (after.sent != db.sent ==> Unsent(db.run.candidates[db.run.current].state) && run.state.Running?)
  {
    if run.state.Running? {
      match run.candidates[run.current].state {
        case Planned => PrepareKeepsSound(db, run, p);
        case Prepared => SendCandidateKeepsSound(db, run, p);
        case SendStarted =>
          var id := run.candidates[run.current].executionID;
          InterferenceKeepsSound(db, p.lookup.before);
          var (seen, _) := ReadRun(db, p.lookup);
          WriteKeepsSound(seen, Interrupt(run.current, run.revision), p.interrupt);
          if id in seen.executions {
            FinishKeepsSound(seen, id, seen.executions[id], p);
          }
        case Finished =>
        case Indeterminate =>
      }
    }
  }

  lemma PassKeepsSound(db: Db, p: Plan)
    requires Sound(db) && SingleWorker(p)
    ensures var after := Pass(db, p).0;
            && Sound(after) && after.sent in {db.sent, db.sent + [db.run.current]}
            && (after.sent != db.sent ==> Unsent(db.run.candidates[db.run.current].state))
  {
    var (listed, outcome) := ReadRun(db, p.list);
    InterferenceKeepsSound(db, p.list.before);
    InterferenceKeepsSound(listed, p.wait);
    if outcome.Done? {
      AdvanceRunKeepsSound(Interfere(listed, p.wait), listed.run, p);
    }
  }

  lemma StepKeepsSound(db: Db, event: Event)
    requires Sound(db) && Expected(event)
    ensures Sound(Step(db, event)) && db.sent <= Step(db, event).sent
  {
    match event
    case DoPass(p) => PassKeepsSound(db, p);
    case Request(tx) =>
      assert [tx][..0] == [];
      assert Interfere(db, [tx]) == Transact(db, tx).0;
      InterferenceKeepsSound(db, [tx]);
  }

  lemma {:induction false} RunKeepsSound(db: Db, events: seq<Event>)
    requires Sound(db) && forall i :: 0 <= i < |events| ==> Expected(events[i])
    ensures Sound(RunAll(db, events)) && db.sent <= RunAll(db, events).sent
    decreases |events|
  {
    if events != [] {
      assert Expected(events[0]);
      StepKeepsSound(db, events[0]);
      RunKeepsSound(Step(db, events[0]), events[1..]);
    }
  }

  function NewRun(count: nat): Db {
    Db(RunRow(RunPlanned, 0, seq(count, i => Candidate(Planned, "", 0, Stop)), 1), map[], [], 1, false, [])
  }

  /** What the invariant says about sending: at most once each, in order, and only after the mark. */
  predicate SentOnce(db: Db) {
    && (forall i, j :: 0 <= i < j < |db.sent| ==> db.sent[i] < db.sent[j])
    && (forall i :: 0 <= i < |db.sent| ==>
          InRange(db.run, db.sent[i]) && !Unsent(db.run.candidates[db.sent[i]].state))
  }

  lemma SoundSendsOnce(db: Db)
    requires Valid(db)
    ensures SentOnce(db) && forall o :: multiset(db.sent)[o] <= 1
  {
    forall i | 0 <= i < |db.sent|
      ensures InRange(db.run, db.sent[i]) && !Unsent(db.run.candidates[db.sent[i]].state)
    {
      assert db.sent[i] in db.sent;
    }
    forall o ensures multiset(db.sent)[o] <= 1 {
      RisingOnce(db.sent, o);
    }
  }

  /** Across any number of passes, each stopped by any error, death or misreported commit at any
      store call, with operators starting, cancelling and editing in between: every candidate reaches
      the executor at most once, in order, and only one whose mark was stored first. */
  lemma EachCandidateIsSentAtMostOnce(count: nat, events: seq<Event>)
    requires 1 <= count && forall i :: 0 <= i < |events| ==> Expected(events[i])
    ensures var end := RunAll(NewRun(count), events); SentOnce(end) && forall o :: multiset(end.sent)[o] <= 1
  {
    RunKeepsSound(NewRun(count), events);
    SoundSendsOnce(RunAll(NewRun(count), events));
  }

  /** Over the same runs, at most one recipe version is ever published: that of a candidate that was
      sent, succeeded, and was tested under the very configuration that was still in force at the
      commit. And config_error is concluded only after every single candidate was sent and refused
      for its authentication. */
  lemma ConclusionsRestOnWhatWasSent(count: nat, events: seq<Event>)
    requires 1 <= count && forall i :: 0 <= i < |events| ==> Expected(events[i])
    ensures var end := RunAll(NewRun(count), events);
            && |end.published| <= 1
            && (end.published != [] ==>
                  end.run.state.Succeeded? && end.published[0].ordinal in end.sent && Tested(end, end.published[0]))
            && (end.configError ==>
                  && end.run.state.FailedRun? && AllRejected(end.run.candidates)
                  && forall j :: 0 <= j < |end.run.candidates| ==> j in end.sent)
  {
    RunKeepsSound(NewRun(count), events);
  }

  lemma {:induction false} RisingOnce(s: seq<int>, o: int)
    requires forall i, j :: 0 <= i < j < |s| ==> s[i] < s[j]
    ensures multiset(s)[o] <= 1
    decreases |s|
  {
    if s != [] {
      var last := |s| - 1;
      assert s == s[..last] + [s[last]];
      RisingOnce(s[..last], o);
      if s[last] == o {
        assert o !in s[..last];
      }
    }
  }

  /** A pass that finds the candidate already marked never sends: it finishes from the stored
      execution or interrupts the run. */
  lemma MarkedCandidateIsNotResent(db: Db, p: Plan)
    requires Sound(db) && SingleWorker(p) && !Unsent(db.run.candidates[db.run.current].state)
    ensures Pass(db, p).0.sent == db.sent
  {
    PassKeepsSound(db, p);
  }

  /** The configuration alone may still move. */
  predicate SameButConfig(before: Db, after: Db) {
    after == before.(config := after.config)
  }

  lemma {:induction false} OperatorsCannotRevive(db: Db, txs: seq<Tx>)
    requires Operators(txs) && Terminal(db.run)
    ensures SameButConfig(db, Interfere(db, txs))
    decreases |txs|
  {
    if txs != [] {
      var prefix := txs[..|txs| - 1];
      assert forall i :: 0 <= i < |prefix| ==> prefix[i] == txs[i];
      OperatorsCannotRevive(db, prefix);
      assert Operator(txs[|txs| - 1]);
    }
  }

  /** Canceled, interrupted and finished runs stay as they are: no later pass or request changes or sends anything. */
  lemma {:induction false} TerminalRunsStay(db: Db, events: seq<Event>)
    requires Terminal(db.run) && forall i :: 0 <= i < |events| ==> Expected(events[i])
    ensures SameButConfig(db, RunAll(db, events))
    decreases |events|
  {
    if events != [] {
      assert Expected(events[0]);
      match events[0] {
        case DoPass(p) =>
          OperatorsCannotRevive(db, p.list.before);
          OperatorsCannotRevive(ReadRun(db, p.list).0, p.wait);
        case Request(tx) =>
      }
      assert SameButConfig(db, Step(db, events[0]));
      TerminalRunsStay(Step(db, events[0]), events[1..]);
    }
  }

  const OK := Call([], Works)

  /** An undisturbed restart on a marked candidate settles it and sends nothing: without a stored
      execution the run is interrupted, a stored failure finishes the candidate, and a stored success
      makes the run succeed exactly when its request can be gathered, the recipe row is current and
      the configuration is still the tested one. */
  lemma RestartSettlesMarked(db: Db, p: Plan)
    requires Valid(db) && db.run.state.Running? && p.wait == []
    requires p.list == OK && p.lookup == OK && p.interrupt == OK && p.readFinal == OK && p.finish == OK
    requires var c := db.run.candidates[db.run.current]; c.state.SendStarted? && c.executionID != "" && c.version > 0
    ensures var c, o := db.run.candidates[db.run.current], db.run.current;
            var (after, outcome) := Pass(db, p);
            && after.sent == db.sent
            && (c.executionID !in db.executions ==>
                  outcome.Done? && after.run.state.Interrupted? && after.run.candidates[o].state.Indeterminate?)
            && (c.executionID in db.executions ==>
                  var e := db.executions[c.executionID];
                  e.ordinal == o && e.version == c.version ==>
                    if !e.success then outcome.Done? && after.run.candidates[o].state.Finished?
                    else if p.gathered.Gathered? && p.recipeCurrent && e.config == db.config then
                      outcome.Done? && after.run.state.Succeeded? && after.run.candidates[o].state.Finished?
                    else !outcome.Done? && after == db)
  {
  }

  /** One worker is essential: a mark that somebody else stores between this worker's prepare and
      its next read (on the way to sending) does not stop this worker from sending as well. */
  lemma ForeignMarkDoesNotStopSending(p: Plan)
    requires p.wait == [] && p.list == OK && p.prepare == OK && p.id == "x" && p.target.Enabled? && !p.contextDone
    requires p.readPrepared == Call([MarkSendStarted(0, "x", 3)], Works) && p.readCancel == OK
    requires p.targetAgain.Enabled? && p.assembled.Gathered? && p.sending == Sending(false, false, Stop, Failed)
    ensures Pass(NewRun(1).(run := NewRun(1).run.(state := Running, revision := 2)), p).0.sent == [0]
  {
  }

  // ---- Several runs: a page lists the running ones, and the pass advances them one after the other ----

  /** One listed run and how its turn goes; what operators did to it since the listing is in `p.wait`. */
  datatype Turn = Turn(index: nat, p: Plan)

  /** The first error ends the pass. */
  function Page(dbs: seq<Db>, turns: seq<Turn>): (seq<Db>, Outcome)
    requires forall i :: 0 <= i < |turns| ==> turns[i].index < |dbs|
    decreases |turns|
  {
    if turns == [] then (dbs, Done)
    else
      var k := turns[0].index;
      var (after, outcome) := AdvanceRun(Interfere(dbs[k], turns[0].p.wait), dbs[k].run, turns[0].p);
      var next := dbs[k := after];
      if !outcome.Done? then (next, outcome) else Page(next, turns[1..])
  }

  /** A page lists a run once. */
  predicate Listing(dbs: seq<Db>, turns: seq<Turn>) {
    && (forall i :: 0 <= i < |turns| ==> turns[i].index < |dbs|)
    && (forall i, j :: 0 <= i < j < |turns| ==> turns[i].index != turns[j].index)
  }

  datatype GatewayEvent = DoPage(turns: seq<Turn>) | RequestOn(index: nat, tx: Tx)

  function GatewayStep(dbs: seq<Db>, event: GatewayEvent): seq<Db> {
    match event
    case DoPage(turns) => if Listing(dbs, turns) then Page(dbs, turns).0 else dbs
    case RequestOn(index, tx) => if index < |dbs| then dbs[index := Transact(dbs[index], tx).0] else dbs
  }

  function GatewayRun(dbs: seq<Db>, events: seq<GatewayEvent>): seq<Db>
    decreases |events|
  {
    if events == [] then dbs else GatewayRun(GatewayStep(dbs, events[0]), events[1..])
  }

  predicate ExpectedOn(event: GatewayEvent) {
    match event
    case DoPage(turns) => SingleWorkers(turns)
    case RequestOn(_, tx) => Operator(tx)
  }

  predicate AllSound(dbs: seq<Db>) {
    forall k :: 0 <= k < |dbs| ==> Sound(dbs[k])
  }

  predicate SingleWorkers(turns: seq<Turn>) {
    forall i :: 0 <= i < |turns| ==> SingleWorker(turns[i].p)
  }

  lemma {:induction false} PageKeepsSound(dbs: seq<Db>, turns: seq<Turn>)
    requires Listing(dbs, turns) && SingleWorkers(turns) && AllSound(dbs)
    ensures |Page(dbs, turns).0| == |dbs| && AllSound(Page(dbs, turns).0)
    decreases |turns|
  {
    if turns != [] {
      var k, p := turns[0].index, turns[0].p;
      InterferenceKeepsSound(dbs[k], p.wait);
      AdvanceRunKeepsSound(Interfere(dbs[k], p.wait), dbs[k].run, p);
      var (after, outcome) := AdvanceRun(Interfere(dbs[k], p.wait), dbs[k].run, p);
      if outcome.Done? {
        assert forall i :: 0 <= i < |turns[1..]| ==> turns[1..][i] == turns[i + 1];
        PageKeepsSound(dbs[k := after], turns[1..]);
      }
    }
  }

  lemma {:induction false} GatewayKeepsSound(dbs: seq<Db>, events: seq<GatewayEvent>)
    requires AllSound(dbs)
    requires forall i :: 0 <= i < |events| ==> ExpectedOn(events[i])
    ensures |GatewayRun(dbs, events)| == |dbs| && AllSound(GatewayRun(dbs, events))
    decreases |events|
  {
    if events != [] {
      assert ExpectedOn(events[0]);
      match events[0] {
        case DoPage(turns) => if Listing(dbs, turns) { PageKeepsSound(dbs, turns); }
        case RequestOn(index, tx) => if index < |dbs| { StepKeepsSound(dbs[index], Request(tx)); }
      }
      GatewayKeepsSound(GatewayStep(dbs, events[0]), events[1..]);
    }
  }

  /** With any number of runs in the store and the worker going through pages of them: of every run,
      every candidate is sent at most once. */
  lemma EveryRunSendsAtMostOnce(counts: seq<nat>, events: seq<GatewayEvent>, k: nat)
    requires (forall i :: 0 <= i < |counts| ==> counts[i] >= 1) && k < |counts|
    requires forall i :: 0 <= i < |events| ==> ExpectedOn(events[i])
    ensures var start := seq(|counts|, i requires 0 <= i < |counts| => NewRun(counts[i]));
            var end := GatewayRun(start, events);
            && |end| == |counts|
            && SentOnce(end[k]) && forall o :: multiset(end[k].sent)[o] <= 1
  {
    var start := seq(|counts|, i requires 0 <= i < |counts| => NewRun(counts[i]));
    GatewayKeepsSound(start, events);
    SoundSendsOnce(GatewayRun(start, events)[k]);
  }
}
