/** The calibration store and its single worker, step by step over shared state. */
module CalibrationWorker {
  import opened Calibration

  class Store {
    var run: RunRow
    var executions: map<string, Execution>
    var sent: seq<int>
    var config: int
    var configError: bool
    var published: seq<Publication>

    function View(): Db
      reads this
    {
      Db(run, executions, sent, config, configError, published)
    }

    constructor (count: nat)
      ensures View() == NewRun(count)
    {
      run := RunRow(RunPlanned, 0, seq(count, i => Candidate(Planned, "", 0, Stop)), 1);
      executions, sent := map[], [];
      config, configError, published := 1, false, [];
    }

    method SaveCandidate(ordinal: int, c: Candidate)
      requires InRange(run, ordinal)
      modifies this`run
      ensures run == SetCandidate(old(run), ordinal, c)
    {
      run := run.(candidates := run.candidates[ordinal := c]);
    }

    method PrepareCandidate(ordinal: int, revision: int, id: string, version: int) returns (ok: bool)
      modifies this`run
      ensures (View(), ok) == PrepareTx(old(View()), ordinal, revision, id, version)
    {
      if run.state != Running || run.revision != revision || run.current != ordinal || !InRange(run, ordinal) {
        return false;
      }
      var c := run.candidates[ordinal];
      if c.state != Planned {
        return c.version > 0;
      }
      SaveCandidate(ordinal, c.(state := Prepared, executionID := id, version := version));
      run := run.(revision := run.revision + 1);
      return true;
    }

    method Mark(ordinal: int, id: string, revision: int) returns (ok: bool)
      modifies this`run
      ensures (View(), ok) == MarkTx(old(View()), ordinal, id, revision)
    {
      if run.revision != revision || run.state != Running || !InRange(run, ordinal) {
        return false;
      }
      var c := run.candidates[ordinal];
      if c.state == SendStarted {
        return c.executionID == id;
      }
      if c.state != Prepared || c.executionID == "" || c.executionID != id {
        return false;
      }
      SaveCandidate(ordinal, c.(state := SendStarted));
      run := run.(revision := run.revision + 1);
      return true;
    }

    method InterruptCandidate(ordinal: int, revision: int) returns (ok: bool)
      modifies this`run
      ensures (View(), ok) == InterruptTx(old(View()), ordinal, revision)
    {
      if run.revision != revision || !InRange(run, ordinal) {
        return false;
      }
      var c := run.candidates[ordinal];
      if c.state == Indeterminate && run.state == Interrupted {
        return true;
      }
      if run.state != Running || c.state != SendStarted {
        return false;
      }
      SaveCandidate(ordinal, c.(state := Indeterminate, disposition := Stop));
      run := run.(state := Interrupted, revision := run.revision + 1);
      return true;
    }

    /** The first planned candidate after the finished one, in ordinal order. */
    method FindNextPlanned(from: nat) returns (following: int)
      ensures following == NextPlanned(run.candidates, from)
    {
      var i := from;
      while i < |run.candidates|
        invariant from <= i
        invariant NextPlanned(run.candidates, from) == NextPlanned(run.candidates, i)
      {
        if run.candidates[i].state == Planned {
          return i;
        }
        i := i + 1;
      }
      return -1;
    }

    /** No candidate is unfinished or ended otherwise than by a refused authentication. */
    method CountNotRejected() returns (count: nat)
      ensures count == 0 <==> AllRejected(run.candidates)
    {
      count := 0;
      var i := 0;
      while i < |run.candidates|
        invariant 0 <= i <= |run.candidates|
        invariant count == 0 <==> AllRejected(run.candidates[..i])
      {
        if run.candidates[i].state != Finished || run.candidates[i].disposition != TryNextAuth {
          count := count + 1;
        }
        assert run.candidates[..i + 1] == run.candidates[..i] + [run.candidates[i]];
        i := i + 1;
      }
      assert run.candidates[..i] == run.candidates;
    }

    method AdvanceAfterExecution(ordinal: int, id: string, revision: int) returns (ok: bool)
      modifies this`run, this`configError
      ensures (View(), ok) == AdvanceTx(old(View()), ordinal, id, revision)
    {
      if run.revision != revision {
        return false;
      }
      if run.state != Running {
        return true;
      }
      if !InRange(run, ordinal) {
        return false;
      }
      var c := run.candidates[ordinal];
      if c.state == Finished {
        return true;
      }
      if id !in executions || executions[id].ordinal != ordinal || c.executionID == "" || c.executionID != id {
        return false;
      }
      if c.version > 0 && executions[id].version != c.version {
        return false;
      }
      if c.state != SendStarted && c.state != Prepared {
        return false;
      }
      FinishCandidate(ordinal, executions[id].disposition);
      return true;
    }

    method FinishCandidate(ordinal: int, disposition: Disposition)
      requires InRange(run, ordinal)
      modifies this`run, this`configError
      ensures View() == Advanced(old(View()), ordinal, disposition)
    {
      SaveCandidate(ordinal, run.candidates[ordinal].(state := Finished, disposition := disposition));
      var following := -1;
      if disposition != Stop {
        following := FindNextPlanned(ordinal + 1);
      }
      if following >= 0 {
        run := run.(current := following, revision := run.revision + 1);
        return;
      }
      if disposition == TryNextAuth {
        var others := CountNotRejected();
        if others == 0 {
          configError := true;
        }
      }
      run := run.(state := FailedRun, revision := run.revision + 1);
    }

    method CommitCalibrationSuccess(ordinal: int, id: string, revision: int, version: int, expected: int,
                                    recipeCurrent: bool) returns (ok: bool)
      modifies this`run, this`config, this`published
      ensures (View(), ok) == CommitSuccessTx(old(View()), ordinal, id, revision, version, expected, recipeCurrent)
    {
      if version < 1 || run.revision != revision {
        return false;
      }
      if run.state == Succeeded {
        return true;
      }
      if run.state != Running || !InRange(run, ordinal) || run.candidates[ordinal].version != version {
        return false;
      }
      if id !in executions || !executions[id].success
         || executions[id].version != version || executions[id].ordinal != ordinal {
        return false;
      }
      if config != expected || config != executions[id].config {
        return false;
      }
      if !recipeCurrent {
        return false;
      }
      published := published + [Publication(ordinal, version, config)];
      config := config + 1;
      SaveCandidate(ordinal, run.candidates[ordinal].(state := Finished, executionID := id, disposition := Stop));
      run := run.(state := Succeeded, revision := run.revision + 1);
      return true;
    }

    method FinishRun(state: RunState, revision: int) returns (ok: bool)
      modifies this`run
      ensures (View(), ok) == FinishTx(old(View()), state, revision)
    {
      if state != FailedRun && state != Canceled && state != Interrupted {
        return false;
      }
      if run.revision == revision && (run.state == RunPlanned || run.state == Running) {
        run := run.(state := state, revision := run.revision + 1);
        return true;
      }
      return run.state == state;
    }

    method StartRun(revision: int) returns (ok: bool)
      modifies this`run
      ensures (View(), ok) == StartTx(old(View()), revision)
    {
      if run.revision == revision && (run.state == RunPlanned || run.state == Running) {
        run := run.(state := Running, revision := run.revision + 1);
        return true;
      }
      return run.state == Running && run.revision == revision + 1;
    }

    method Apply(tx: Tx) returns (ok: bool)
      modifies this`run, this`config, this`configError, this`published
      ensures (View(), ok) == Transact(old(View()), tx)
    {
      match tx {
        case Start(revision) => ok := StartRun(revision);
        case Prepare(ordinal, revision, id, version) => ok := PrepareCandidate(ordinal, revision, id, version);
        case MarkSendStarted(ordinal, id, revision) => ok := Mark(ordinal, id, revision);
        case Interrupt(ordinal, revision) => ok := InterruptCandidate(ordinal, revision);
        case Advance(ordinal, id, revision) => ok := AdvanceAfterExecution(ordinal, id, revision);
        case CommitSuccess(ordinal, id, revision, version, expected, recipeCurrent) =>
          ok := CommitCalibrationSuccess(ordinal, id, revision, version, expected, recipeCurrent);
        case Finish(state, revision) => ok := FinishRun(state, revision);
        case Edit =>
          config := config + 1;
          ok := true;
      }
    }

    /** Other parties act on the store. */
    method Meanwhile(txs: seq<Tx>)
      modifies this`run, this`config, this`configError, this`published
      ensures View() == Interfere(old(View()), txs)
    {
      var i := 0;
      while i < |txs|
        invariant 0 <= i <= |txs|
        invariant View() == Interfere(old(View()), txs[..i])
      {
        assert txs[..i + 1][..i] == txs[..i];
        var _ := Apply(txs[i]);
        i := i + 1;
      }
      assert txs[..|txs|] == txs;
    }

    method Commit(tx: Tx, call: Call) returns (outcome: Outcome)
      modifies this`run, this`config, this`configError, this`published
      ensures (View(), outcome) == Write(old(View()), tx, call)
    {
      Meanwhile(call.before);
      if call.effect == Fails {
        return Failed;
      }
      if call.effect == Dies {
        return Crashed;
      }
      var ok := Apply(tx);
      if call.effect == FailsCommitted {
        return Failed;
      }
      if call.effect == DiesCommitted {
        return Crashed;
      }
      return if ok then Done else Failed;
    }

    method Read(call: Call) returns (row: RunRow, outcome: Outcome)
      modifies this`run, this`config, this`configError, this`published
      ensures (View(), outcome) == ReadRun(old(View()), call) && row == run
    {
      Meanwhile(call.before);
      row := run;
      match call.effect {
        case Works => outcome := Done;
        case Fails => outcome := Failed;
        case FailsCommitted => outcome := Failed;
        case Dies => outcome := Crashed;
        case DiesCommitted => outcome := Crashed;
      }
    }

    /** The executor: the request may go out, and its execution may be stored. */
    method Execute(id: string, e: Execution, stored: bool)
      modifies this`sent, this`executions
      ensures sent == old(sent) + [e.ordinal]
      ensures executions == if stored then old(executions)[id := e] else old(executions)
    {
      sent := sent + [e.ordinal];
      if stored {
        executions := executions[id := e];
      }
    }
  }

  ghost function Views(stores: seq<Store>): seq<Db>
    reads stores
  {
    seq(|stores|, i requires 0 <= i < |stores| reads stores => stores[i].View())
  }

  predicate Distinct(stores: seq<Store>) {
    forall i, j :: 0 <= i < j < |stores| ==> stores[i] != stores[j]
  }

  /** The worker over the stored runs, one store object a run. */
  class Worker {
    const stores: seq<Store>

    constructor (stores: seq<Store>)
      ensures this.stores == stores
    {
      this.stores := stores;
    }

    method RefuseRun(store: Store, revision: int, p: Plan) returns (outcome: Outcome)
      modifies store
      ensures (store.View(), outcome) == Refuse(old(store.View()), revision, p)
    {
      outcome := store.Commit(Finish(FailedRun, revision), p.refuse);
      if outcome != Crashed {
        outcome := Failed;
      }
    }

    method FinishExecution(store: Store, id: string, e: Execution, p: Plan) returns (outcome: Outcome)
      modifies store
      ensures (store.View(), outcome) == FinishFromExecution(old(store.View()), id, e, p)
    {
      var run;
      run, outcome := store.Read(p.readFinal);
      if outcome != Done {
        return;
      }
      if run.state != Running {
        return Done;
      }
      if !e.success {
        outcome := store.Commit(Advance(run.current, id, run.revision), p.finish);
        return;
      }
      if p.gathered == Missing {
        return Failed;
      }
      if p.gathered == DeadGathering {
        return Crashed;
      }
      var version := 0;
      if InRange(run, run.current) {
        version := run.candidates[run.current].version;
      }
      var expected := e.config;
      if expected < 1 {
        expected := store.config;
      }
      var success := CommitSuccess(run.current, id, run.revision, version, expected, p.recipeCurrent);
      outcome := store.Commit(success, p.finish);
    }

    /** The second half of sending: check for cancellation, gather the request, execute, finish. */
    method ContinueSending(store: Store, id: string, p: Plan) returns (outcome: Outcome)
      modifies store
      ensures (store.View(), outcome) == Proceed(old(store.View()), id, p)
    {
      if p.contextDone {
        return Failed;
      }
      var run;
      run, outcome := store.Read(p.readCancel);
      if outcome != Done {
        return;
      }
      if run.state == Canceled {
        return Done;
      }
      if !InRange(run, run.current) {
        return Crashed;
      }
      var c := run.candidates[run.current];
      match p.targetAgain {
        case Unreadable => return Failed;
        case DeadThere => return Crashed;
        case Disabled =>
          outcome := RefuseRun(store, run.revision, p);
          return;
        case Enabled =>
      }
      if p.assembled == Missing {
        return Failed;
      }
      if p.assembled == DeadGathering {
        return Crashed;
      }
      var e := Execution(run.current, p.sending.success, p.sending.disposition, c.version, store.config);
      store.Execute(id, e, p.sending.stored);
      if p.sending.outcome != Done {
        return p.sending.outcome;
      }
      run, outcome := store.Read(p.readExecuted);
      if outcome != Done {
        return;
      }
      outcome := FinishExecution(store, id, e, p);
    }

    method SendOne(store: Store, run: RunRow, p: Plan) returns (outcome: Outcome)
      modifies store
      ensures (store.View(), outcome) == SendCandidate(old(store.View()), run, p)
    {
      if !InRange(run, run.current) {
        return Crashed;
      }
      var c := run.candidates[run.current];
      if c.executionID == "" {
        return Failed;
      }
      match p.target {
        case Unreadable => return Failed;
        case DeadThere => return Crashed;
        case Disabled =>
          outcome := RefuseRun(store, run.revision, p);
          return;
        case Enabled =>
      }
      if c.state == Prepared {
        outcome := store.Commit(MarkSendStarted(run.current, c.executionID, run.revision), p.mark);
        if outcome != Done {
          return;
        }
        var marked;
        marked, outcome := store.Read(p.readMarked);
        if outcome != Done {
          return;
        }
      }
      outcome := ContinueSending(store, c.executionID, p);
    }

    method PrepareThenSend(store: Store, run: RunRow, p: Plan) returns (outcome: Outcome)
      modifies store
      ensures (store.View(), outcome) == PrepareAndContinue(old(store.View()), run, p)
    {
      outcome := store.Commit(Prepare(run.current, run.revision, p.id, p.version), p.prepare);
      if outcome != Done {
        return;
      }
      var prepared;
      prepared, outcome := store.Read(p.readPrepared);
      if outcome != Done {
        return;
      }
      outcome := SendOne(store, prepared, p);
    }

    method Recover(store: Store, run: RunRow, id: string, p: Plan) returns (outcome: Outcome)
      modifies store
      ensures (store.View(), outcome) == RecoverSendStarted(old(store.View()), run, id, p)
    {
      if id == "" {
        return Failed;
      }
      var _, looked := store.Read(p.lookup);
      if looked != Done {
        return looked;
      }
      if id in store.executions {
        outcome := FinishExecution(store, id, store.executions[id], p);
      } else {
        outcome := store.Commit(Interrupt(run.current, run.revision), p.interrupt);
      }
    }

    method AdvanceOne(store: Store, run: RunRow, p: Plan) returns (outcome: Outcome)
      modifies store
      ensures (store.View(), outcome) == AdvanceRun(old(store.View()), run, p)
    {
      if run.state != Running {
        return Done;
      }
      if !InRange(run, run.current) {
        outcome := store.Commit(Finish(FailedRun, run.revision), p.refuse);
        return;
      }
      var c := run.candidates[run.current];
      match c.state {
        case Planned => outcome := PrepareThenSend(store, run, p);
        case Prepared => outcome := SendOne(store, run, p);
        case SendStarted => outcome := Recover(store, run, c.executionID, p);
        case Finished => outcome := Done;
        case Indeterminate => outcome := Done;
      }
    }

    method ListRunning(turns: seq<Turn>) returns (page: seq<RunRow>)
      requires forall i :: 0 <= i < |turns| ==> turns[i].index < |stores|
      ensures |page| == |turns| && forall i :: 0 <= i < |turns| ==> page[i] == stores[turns[i].index].run
    {
      page := [];
      var i := 0;
      while i < |turns|
        invariant 0 <= i <= |turns| && |page| == i
        invariant forall j :: 0 <= j < i ==> page[j] == stores[turns[j].index].run
      {
        page := page + [stores[turns[i].index].run];
        i := i + 1;
      }
    }

    /** One turn on the run behind `k`: the other runs stay as they are. */
    method TakeTurn(k: nat, row: RunRow, p: Plan) returns (outcome: Outcome)
      requires Distinct(stores) && k < |stores|
      modifies stores[k]
      ensures var (after, o) := AdvanceRun(Interfere(old(stores[k].View()), p.wait), row, p);
              outcome == o && Views(stores) == old(Views(stores))[k := after]
    {
      stores[k].Meanwhile(p.wait);
      outcome := AdvanceOne(stores[k], row, p);
      assert forall j :: 0 <= j < |stores| && j != k ==> stores[j] != stores[k];
    }

    /** The listed rows match the store for every turn still to come. */
    ghost predicate Listed(dbs: seq<Db>, page: seq<RunRow>, turns: seq<Turn>) {
      && |page| == |turns| && Listing(dbs, turns)
      && forall j :: 0 <= j < |turns| ==> page[j] == dbs[turns[j].index].run
    }

    lemma ListedAfterTurn(dbs: seq<Db>, page: seq<RunRow>, turns: seq<Turn>, after: Db)
      requires turns != [] && Listed(dbs, page, turns)
      ensures Listed(dbs[turns[0].index := after], page[1..], turns[1..])
    {
    }

    method AdvancePage(page: seq<RunRow>, turns: seq<Turn>) returns (outcome: Outcome)
      requires Distinct(stores) && Listed(Views(stores), page, turns)
      modifies stores
      ensures (Views(stores), outcome) == Page(old(Views(stores)), turns)
    {
      var i := 0;
      ghost var now := Views(stores);
      assert turns[0..] == turns && page[0..] == page;
      while i < |turns|
        invariant 0 <= i <= |turns| && now == Views(stores)
        invariant Listed(now, page[i..], turns[i..])
        invariant Page(old(Views(stores)), turns) == Page(now, turns[i..])
      {
        assert turns[i..][0] == turns[i] && page[i..][0] == page[i];
        assert turns[i..][1..] == turns[i + 1..] && page[i..][1..] == page[i + 1..];
        ghost var k := turns[i].index;
        ghost var after := AdvanceRun(Interfere(now[k], turns[i].p.wait), page[i], turns[i].p).0;
        ListedAfterTurn(now, page[i..], turns[i..], after);
        outcome := TakeTurn(turns[i].index, page[i], turns[i].p);
        now := now[k := after];
        if outcome != Done {
          return;
        }
        i := i + 1;
      }
      return Done;
    }

    /** A pass: list a page of running runs, then advance them one after the other up to the first error.
        It keeps the invariant under which no candidate is ever sent twice. */
    method StepOnce(listing: Outcome, turns: seq<Turn>) returns (outcome: Outcome)
      requires Distinct(stores) && Listing(Views(stores), turns)
      modifies stores
      ensures (Views(stores), outcome)
              == if listing.Done? then Page(old(Views(stores)), turns) else (old(Views(stores)), listing)
      ensures AllSound(old(Views(stores))) && SingleWorkers(turns) ==> AllSound(Views(stores))
    {
      ghost var before := Views(stores);
      if listing != Done {
        return listing;
      }
      if AllSound(before) && SingleWorkers(turns) {
        PageKeepsSound(before, turns);
      }
      var page := ListRunning(turns);
      outcome := AdvancePage(page, turns);
    }
  }
}
