/** The search-index run that follows an illumination, over whole runs of the protocol: what an answer of
    its submission guarantees, and when the index is sure to be built from what was stored. */
module FollowUps {
  import opened Options
  import opened Statuses
  import opened Tasks
  import opened RunTable
  import opened Protocol
  import opened ProtocolSafety
  import opened Discipline
  import opened DisciplineSafety
  import opened Claims
  import opened TaskMasters

  // ---- What an answer guarantees --------------------------------------------------------------

  /** The submission a worker makes after a successful illumination: the follow-up task, under its tag. */
  predicate FollowsUp(sub: Submitter, run: TaskRun) {
    FollowUp(run.task) == Some(sub.task) && sub.backfill == run.backfillId
  }

  /** Row `k` is what a follow-up can rely on, relative to state `x`: a run of its task inserted since, the
      run that carried its tag, or the run its own read found in flight. */
  predicate ReliesOn(ws: seq<World>, steps: seq<Step>, x: nat, n: nat, s: nat, k: nat)
    requires |ws| == |steps| + 1 && x <= n < |ws| && s in ws[n].submitters && k < |ws[n].rows|
  {
    var sub := ws[n].submitters[s];
    && ws[n].rows[k].run.logicalId == sub.logicalId
    && sub.phase.Answered?
    && match sub.phase.outcome
       case Enqueued(id, _) => |ws[x].rows| <= k && ws[n].rows[k].run.runId == id
       case AlreadySubmitted(_, _) => HasKey(ws[n].rows[k].run, sub.backfill, sub.logicalId)
       case RefusedInFlight =>
         || |ws[x].rows| <= k
         || (k < |ws[x].rows| && x < n && steps[x] == ReadLatest(s) && InFlight(ws[x].rows[k])
             && ws[x].rows[k].run.runNumber == RunCount(ws[x].rows, |ws[x].rows|, sub.logicalId))
       case Errored => false
  }

  /** State `x` is the submission's own read, which found row `k` in flight. */
  predicate ReadInFlight(ws: seq<World>, steps: seq<Step>, x: nat, n: nat, s: nat, k: nat)
    requires |ws| == |steps| + 1 && x <= n < |ws| && s in ws[n].submitters
  {
    && ws[n].submitters[s].phase == Answered(RefusedInFlight)
    && x < n && steps[x] == ReadLatest(s) && k < |ws[x].rows| && InFlight(ws[x].rows[k])
  }

  /** A follow-up that starts after state `e` and is answered without an error has an index run of its capture
      to rely on. In the history there may be none in flight any more, so this is all that can be said. */
  lemma AnsweredFollowUpReliesOn(ws: seq<World>, steps: seq<Step>, e: nat, n: nat, s: nat, run: TaskRun)
    returns (x: nat, k: nat)
    requires IsRun(ws, steps) && e <= n < |ws| && s !in ws[e].submitters && s in ws[n].submitters
    requires ws[n].submitters[s].phase.Answered? && !ws[n].submitters[s].phase.outcome.Errored?
    requires FollowsUp(ws[n].submitters[s], run)
    ensures e <= x <= n && k < |ws[n].rows| && ReliesOn(ws, steps, x, n, s, k)
    ensures x == e || ReadInFlight(ws, steps, x, n, s, k)
    ensures ws[n].rows[k].target == TargetOf(FollowUp(run.task).value)
  {
    var sub := ws[n].submitters[s];
    x, k := LeftARun(ws, steps, e, n, s);
    KeyedHolds(ws, steps, n);
    assert SubmitterKeyed(sub);
    ColumnsMatchKey(ws[n].rows, k, sub.task);
  }

  lemma LeftARun(ws: seq<World>, steps: seq<Step>, e: nat, n: nat, s: nat) returns (x: nat, k: nat)
    requires IsRun(ws, steps) && e <= n < |ws| && s !in ws[e].submitters && s in ws[n].submitters
    requires ws[n].submitters[s].phase.Answered? && !ws[n].submitters[s].phase.outcome.Errored?
    ensures e <= x <= n && k < |ws[n].rows| && ReliesOn(ws, steps, x, n, s, k)
    ensures x == e || ReadInFlight(ws, steps, x, n, s, k)
  {
    var sub := ws[n].submitters[s];
    match sub.phase.outcome
    case Enqueued(id, num) =>
      var i := OwnRunHasItsInsert(ws, steps, n, s, id);
      ActsAfterStart(ws, steps, e, i, s);
      RequestsStay(ws, steps, i, n, s);
      x, k := InsertLeavesRow(ws, steps, e, i, n);
    case AlreadySubmitted(id, num) =>
      InvariantHolds(ws, steps, n);
      assert SubmitterOk(ws[n].rows, sub);
      HeldKeyIsTaken(ws[n].rows, sub, id, num);
      x := e;
      k :| 0 <= k < |ws[n].rows| && HasKey(ws[n].rows[k].run, sub.backfill, sub.logicalId);
    case RefusedInFlight =>
      var i := RefusalIsHindered(ws, steps, e, n, s);
      if ReadsInFlightAt(ws, steps, i, s, sub.logicalId) {
        x, k := ReadFindsRow(ws, steps, i, n, s);
      } else {
        x, k := InsertLeavesRow(ws, steps, e, i, n);
      }
  }

  lemma InsertLeavesRow(ws: seq<World>, steps: seq<Step>, e: nat, i: nat, n: nat) returns (x: nat, k: nat)
    requires IsRun(ws, steps) && e <= i < n < |ws| && AcceptedAt(ws, steps, i)
    ensures x == e && |ws[e].rows| <= k < |ws[n].rows| && ws[n].rows[k].run == InsertedRun(ws, steps, i)
  {
    x, k := e, |ws[i].rows|;
    assert StepAt(ws, steps, i);
    RowsPersist(ws, steps, e, i);
    RowsPersist(ws, steps, i + 1, n);
    assert ws[i + 1].rows[k].run == InsertedRun(ws, steps, i);
  }

  lemma ReadFindsRow(ws: seq<World>, steps: seq<Step>, r: nat, n: nat, s: nat) returns (x: nat, k: nat)
    requires IsRun(ws, steps) && r < n < |ws| && s in ws[n].submitters
    requires ReadsInFlightAt(ws, steps, r, s, ws[n].submitters[s].logicalId)
    ensures x == r && k < |ws[r].rows| && k < |ws[n].rows| && InFlight(ws[r].rows[k])
    ensures ws[n].rows[k].run.logicalId == ws[n].submitters[s].logicalId
    ensures ws[r].rows[k].run.runNumber == RunCount(ws[r].rows, |ws[r].rows|, ws[n].submitters[s].logicalId)
  {
    x := r;
    InvariantHolds(ws, steps, r);
    RowsPersist(ws, steps, r, n);
    LatestIsCount(ws[r].rows, ws[n].submitters[s].logicalId);
    k :| 0 <= k < |ws[r].rows| && ws[r].rows[k] == LatestRun(ws[r].rows, ws[n].submitters[s].logicalId).value;
  }

  // ---- Is the index built from what was stored? -----------------------------------------------

  predicate BeingExecuted(w: World, runId: nat) {
    exists d | d in w.workers :: w.workers[d].runId == runId && w.workers[d].phase.Executing?
  }

  predicate Succeeded(rows: seq<Row>, k: nat) {
    k < |rows| && HasStatus(rows[k], CompleteSuccess)
  }

  /** The step starts an attempt on this run. */
  predicate Marks(w: World, step: Step, runId: nat) {
    step.Mark? && step.d in w.workers && w.workers[step.d].runId == runId
  }

  lemma UnmarkedStep(w: World, step: Step, runId: nat, k: nat)
    requires Enabled(w, step) && !Marks(w, step, runId) && !BeingExecuted(w, runId) && !Succeeded(w.rows, k)
    requires k < |w.rows| ==> w.rows[k].run.runId == runId
    ensures !BeingExecuted(Next(w, step), runId) && !Succeeded(Next(w, step).rows, k)
    ensures k < |w.rows| ==> k < |Next(w, step).rows| && Next(w, step).rows[k].run == w.rows[k].run
  {
    TableEffect(w, step);
    ExecutionStartsWithMark(w, step, runId);
  }

  lemma ExecutionStartsWithMark(w: World, step: Step, runId: nat)
    requires Enabled(w, step)
    ensures BeingExecuted(Next(w, step), runId) ==> BeingExecuted(w, runId) || Marks(w, step, runId)
  {
    var w' := Next(w, step);
    if BeingExecuted(w', runId) && !Marks(w, step, runId) {
      var d :| d in w'.workers && w'.workers[d].runId == runId && w'.workers[d].phase.Executing?;
      OtherWorkersKept(w, step);
      assert d in w.workers && w.workers[d].runId == runId && w.workers[d].phase.Executing?;
    }
  }

  /** A run that nobody is executing in state `e` and that has not succeeded yet can only succeed by an attempt
      that starts after `e`. No assumption on deliveries. */
  lemma {:induction false} SuccessNeedsAttempt(ws: seq<World>, steps: seq<Step>, e: nat, m: nat, k: nat)
    returns (i: nat)
    requires IsRun(ws, steps) && e <= m < |ws| && Succeeded(ws[m].rows, k) && !Succeeded(ws[e].rows, k)
    requires !BeingExecuted(ws[e], ws[m].rows[k].run.runId)
    ensures e <= i < m && Marks(ws[i], steps[i], ws[m].rows[k].run.runId)
  {
    var id := ws[m].rows[k].run.runId;
    i := e;
    while i < m && !Marks(ws[i], steps[i], id)
      invariant e <= i <= m && !BeingExecuted(ws[i], id) && !Succeeded(ws[i].rows, k)
    {
      assert StepAt(ws, steps, i);
      RowsPersist(ws, steps, i, m);
      UnmarkedStep(ws[i], steps[i], id, k);
      i := i + 1;
    }
  }

  /** Under E1-E3 the status shows whether a run is being executed. */
  lemma ExecutedIsInProgress(ws: seq<World>, steps: seq<Step>, n: nat, runId: nat) returns (k: nat)
    requires IsPermittedRun(ws, steps) && n < |ws| && BeingExecuted(ws[n], runId)
    ensures k < |ws[n].rows| && ws[n].rows[k].run.runId == runId && HasStatus(ws[n].rows[k], InProgress)
  {
    GovernedHolds(ws, steps, n);
    var d :| d in ws[n].workers && ws[n].workers[d].runId == runId && ws[n].workers[d].phase.Executing?;
    assert WorkerOk(ws[n], ws[n].workers[d]);
    QueuedIdsTaken(ws[n], runId);
    k :| 0 <= k < |ws[n].rows| && ws[n].rows[k].run.runId == runId;
  }

  /** The run was already being worked on, or done, in that state. */
  predicate BegunAt(rows: seq<Row>, k: nat) {
    k < |rows| && (HasStatus(rows[k], InProgress) || HasStatus(rows[k], CompleteSuccess))
  }

  /** When an illumination is stored by state `e` and its follow-up is answered without an error, the index run
      it relies on succeeds only by an attempt that starts after `e`, unless that run had succeeded or was being
      executed in state `x`: at the follow-up's own read if that found it in flight, else at `e`. This is
      exact: from a state where it is being executed it can succeed without a new attempt. */
  lemma IndexFollowsStore(ws: seq<World>, steps: seq<Step>, e: nat, n: nat, s: nat, run: TaskRun, m: nat)
    returns (x: nat, k: nat, i: nat)
    requires IsRun(ws, steps) && e <= n <= m < |ws| && s !in ws[e].submitters && s in ws[n].submitters
    requires ws[n].submitters[s].phase.Answered? && !ws[n].submitters[s].phase.outcome.Errored?
    requires FollowsUp(ws[n].submitters[s], run)
    ensures e <= x <= n && k < |ws[n].rows| && ReliesOn(ws, steps, x, n, s, k)
    ensures x == e || ReadInFlight(ws, steps, x, n, s, k)
    ensures var id := ws[n].rows[k].run.runId;
      Succeeded(ws[m].rows, k) && !Succeeded(ws[x].rows, k) && !BeingExecuted(ws[x], id) ==>
        e <= i < m && Marks(ws[i], steps[i], id)
    ensures k < |ws[x].rows| && !Succeeded(ws[x].rows, k) ==>
      (BeingExecuted(ws[x], ws[n].rows[k].run.runId) <==> exists path, w' :: StalePath(ws[x], path, w', k))
  {
    x, k := AnsweredFollowUpReliesOn(ws, steps, e, n, s, run);
    RowsPersist(ws, steps, x, n);
    RowsPersist(ws, steps, n, m);
    i := e;
    if Succeeded(ws[m].rows, k) && !Succeeded(ws[x].rows, k) && !BeingExecuted(ws[x], ws[n].rows[k].run.runId) {
      i := SuccessNeedsAttempt(ws, steps, x, m, k);
    }
    if k < |ws[x].rows| && !Succeeded(ws[x].rows, k) {
      StaleSuccessIff(ws[x], k);
    }
  }

  /** Under E1-E3 the condition can be read off the status: it is enough that the run is absent in state `x`, or
      there neither in progress nor succeeded. */
  lemma StatusShowsFreshness(ws: seq<World>, steps: seq<Step>, x: nat, n: nat, k: nat)
    requires IsPermittedRun(ws, steps) && x <= n < |ws| && k < |ws[n].rows| && !BegunAt(ws[x].rows, k)
    ensures !Succeeded(ws[x].rows, k) && !BeingExecuted(ws[x], ws[n].rows[k].run.runId)
  {
    NotBegunIsNotExecuted(ws, steps, x, n, k);
  }

  lemma NotBegunIsNotExecuted(ws: seq<World>, steps: seq<Step>, x: nat, m: nat, k: nat)
    requires IsPermittedRun(ws, steps) && x <= m < |ws| && k < |ws[m].rows|
    requires k < |ws[x].rows| ==> !HasStatus(ws[x].rows[k], InProgress)
    ensures !BeingExecuted(ws[x], ws[m].rows[k].run.runId)
  {
    if BeingExecuted(ws[x], ws[m].rows[k].run.runId) {
      var j := ExecutedIsInProgress(ws, steps, x, ws[m].rows[k].run.runId);
      RowsPersist(ws, steps, x, m);
      InvariantHolds(ws, steps, m);
      SameIdSameRow(ws[m].rows, j, k);
    }
  }

  lemma SameIdSameRow(rows: seq<Row>, j: nat, k: nat)
    requires UniqueIds(rows) && j < |rows| && k < |rows| && rows[j].run.runId == rows[k].run.runId
    ensures j == k
  {
  }

  /** A path that starts no attempt on the run. */
  predicate Unmarked(w: World, steps: seq<Step>, runId: nat)
    decreases |steps|
  {
    steps != [] && Enabled(w, steps[0]) ==>
      !Marks(w, steps[0], runId) && Unmarked(Next(w, steps[0]), steps[1..], runId)
  }

  lemma {:induction false} UnmarkedPath(w: World, steps: seq<Step>, w': World, runId: nat, k: nat)
    requires Path(w, steps, w') && Unmarked(w, steps, runId)
    requires !BeingExecuted(w, runId) && !Succeeded(w.rows, k) && k < |w.rows| && w.rows[k].run.runId == runId
    ensures !Succeeded(w'.rows, k)
    decreases |steps|
  {
    if steps != [] {
      UnmarkedStep(w, steps[0], runId, k);
      UnmarkedPath(Next(w, steps[0]), steps[1..], w', runId, k);
    }
  }

  /** The run of row `k` succeeds along this path although no attempt on it starts. */
  predicate StalePath(w: World, steps: seq<Step>, w': World, k: nat)
    requires k < |w.rows|
  {
    Path(w, steps, w') && Unmarked(w, steps, w.rows[k].run.runId) && Succeeded(w'.rows, k)
  }

  /** The exact condition: a run can still succeed on data read earlier iff somebody is executing it. */
  lemma StaleSuccessIff(w: World, k: nat)
    requires k < |w.rows| && !Succeeded(w.rows, k)
    ensures BeingExecuted(w, w.rows[k].run.runId) <==> exists steps, w' :: StalePath(w, steps, w', k)
  {
    var id := w.rows[k].run.runId;
    if BeingExecuted(w, id) {
      var d :| d in w.workers && w.workers[d].runId == id && w.workers[d].phase.Executing?;
      RecordingIsAStalePath(w, d, k);
    }
    forall steps, w' | StalePath(w, steps, w', k) ensures BeingExecuted(w, id) {
      if !BeingExecuted(w, id) {
        UnmarkedPath(w, steps, w', id, k);
      }
    }
  }

  lemma RecordingIsAStalePath(w: World, d: nat, k: nat)
    requires k < |w.rows| && d in w.workers && w.workers[d].phase.Executing?
    requires w.workers[d].runId == w.rows[k].run.runId
    ensures StalePath(w, [Record(d, Ok, 0)], Next(w, Record(d, Ok, 0)), k)
  {
    var step := Record(d, Ok, 0);
    PathExtends(w, [], w, step);
    assert [] + [step] == [step] && [step][1..] == [];
  }

  // ---- Deliveries that follow the route -------------------------------------------------------

  /** The worker of step `i` started this follow-up while it was executing, and by now it is answered without
      an error. */
  predicate FollowedUp(ws: seq<World>, steps: seq<Step>, b: nat, i: nat, s: nat, run: TaskRun)
    requires |ws| == |steps| + 1 && b < i < |steps| && steps[i].Record?
  {
    && steps[b].StartSubmit? && steps[b].s == s
    && steps[i].d in ws[b].workers && ws[b].workers[steps[i].d].phase.Executing?
    && s in ws[i].submitters && FollowsUp(ws[i].submitters[s], run)
    && ws[i].submitters[s].phase.Answered? && !ws[i].submitters[s].phase.outcome.Errored?
  }

  /** The order of the illumination route: an execution that succeeds is recorded as a success only after its
      follow-up has been answered without an error. */
  ghost predicate RoutedAt(ws: seq<World>, steps: seq<Step>, i: nat)
    requires |ws| == |steps| + 1 && i < |steps|
  {
    steps[i].Record? && steps[i].result.Ok? && steps[i].d in ws[i].workers ==>
      forall k | 0 <= k < |ws[i].rows| && ws[i].rows[k].run.runId == ws[i].workers[steps[i].d].runId
        && FollowUp(ws[i].rows[k].run.task).Some? ::
        exists b, s | 0 <= b < i :: FollowedUp(ws, steps, b, i, s, ws[i].rows[k].run)
  }

  ghost predicate IsRouted(ws: seq<World>, steps: seq<Step>)
    requires |ws| == |steps| + 1
  {
    forall i | 0 <= i < |steps| :: RoutedAt(ws, steps, i)
  }

  lemma SuccessIsRecorded(w: World, step: Step, k: nat)
    requires Enabled(w, step) && Succeeded(Next(w, step).rows, k) && !Succeeded(w.rows, k)
    ensures k < |w.rows| && step.Record? && step.result.Ok? && w.workers[step.d].runId == w.rows[k].run.runId
  {
    TableEffect(w, step);
  }

  /** Under any interleaving, an illumination that is recorded as a success has a follow-up, started by the
      worker that executed it and answered without an error before the success was recorded. */
  lemma {:induction false} SucceededHasFollowUp(ws: seq<World>, steps: seq<Step>, n: nat, k: nat)
    returns (b: nat, i: nat, s: nat)
    requires IsRun(ws, steps) && IsRouted(ws, steps) && n < |ws| && Succeeded(ws[n].rows, k)
    requires FollowUp(ws[n].rows[k].run.task).Some?
    ensures b < i < n && steps[i].Record? && FollowedUp(ws, steps, b, i, s, ws[n].rows[k].run)
  {
    assert StepAt(ws, steps, n - 1);
    RowsPersistOnce(ws, steps, n - 1);
    if Succeeded(ws[n - 1].rows, k) {
      b, i, s := SucceededHasFollowUp(ws, steps, n - 1, k);
    } else {
      i := n - 1;
      SuccessIsRecorded(ws[i], steps[i], k);
      assert RoutedAt(ws, steps, i);
      b, s :| 0 <= b < i && FollowedUp(ws, steps, b, i, s, ws[i].rows[k].run);
    }
  }

  /** So a succeeded illumination has an index run of its capture to rely on, relative to a state in which its
      worker was executing. */
  lemma SucceededHasIndexRun(ws: seq<World>, steps: seq<Step>, n: nat, k: nat)
    returns (b: nat, i: nat, s: nat, x: nat, j: nat)
    requires IsRun(ws, steps) && IsRouted(ws, steps) && n < |ws| && Succeeded(ws[n].rows, k)
    requires FollowUp(ws[n].rows[k].run.task).Some?
    ensures b < i < n && steps[i].Record? && FollowedUp(ws, steps, b, i, s, ws[n].rows[k].run)
    ensures b <= x <= i && j < |ws[i].rows| && ReliesOn(ws, steps, x, i, s, j)
    ensures ws[i].rows[j].target == TargetOf(FollowUp(ws[n].rows[k].run.task).value)
  {
    b, i, s := SucceededHasFollowUp(ws, steps, n, k);
    assert StepAt(ws, steps, b);
    x, j := AnsweredFollowUpReliesOn(ws, steps, b, i, s, ws[n].rows[k].run);
  }

  // ---- The code follows the route -------------------------------------------------------------

  predicate Continues(ws: seq<World>, steps: seq<Step>, ws': seq<World>, steps': seq<Step>) {
    ws <= ws' && steps <= steps'
  }

  lemma RoutedStays(ws: seq<World>, steps: seq<Step>, ws': seq<World>, steps': seq<Step>, i: nat)
    requires |ws| == |steps| + 1 && |ws'| == |steps'| + 1 && Continues(ws, steps, ws', steps')
    requires i < |steps| && RoutedAt(ws, steps, i)
    ensures RoutedAt(ws', steps', i)
  {
    if steps[i].Record? && steps[i].result.Ok? && steps[i].d in ws[i].workers {
      forall k | 0 <= k < |ws[i].rows| && ws[i].rows[k].run.runId == ws[i].workers[steps[i].d].runId
        && FollowUp(ws[i].rows[k].run.task).Some?
        ensures exists b, s | 0 <= b < i :: FollowedUp(ws', steps', b, i, s, ws'[i].rows[k].run)
      {
        var b, s :| 0 <= b < i && FollowedUp(ws, steps, b, i, s, ws[i].rows[k].run);
        assert FollowedUp(ws', steps', b, i, s, ws'[i].rows[k].run);
      }
    }
  }

  /** A step that meets the route's order extends a routed run to a routed run. */
  lemma GoOn(ws: seq<World>, steps: seq<Step>, step: Step) returns (ws': seq<World>, steps': seq<Step>)
    requires IsRun(ws, steps) && IsRouted(ws, steps) && Enabled(Last(ws), step)
    requires RoutedAt(ws + [Next(Last(ws), step)], steps + [step], |steps|)
    ensures IsRun(ws', steps') && IsRouted(ws', steps') && Continues(ws, steps, ws', steps')
    ensures ws' == ws + [Next(Last(ws), step)] && steps' == steps + [step]
  {
    ws', steps' := ws + [Next(Last(ws), step)], steps + [step];
    forall i | 0 <= i < |steps'| ensures StepAt(ws', steps', i) && RoutedAt(ws', steps', i) {
      if i < |steps| {
        assert StepAt(ws, steps, i) && RoutedAt(ws, steps, i);
        RoutedStays(ws, steps, ws', steps', i);
      }
    }
  }

  lemma {:induction false} GoAlong(ws: seq<World>, steps: seq<Step>, path: seq<Step>, w': World)
    returns (ws': seq<World>, steps': seq<Step>)
    requires IsRun(ws, steps) && IsRouted(ws, steps) && Path(Last(ws), path, w') && NoRecord(path)
    ensures IsRun(ws', steps') && IsRouted(ws', steps') && Continues(ws, steps, ws', steps')
    ensures steps' == steps + path && Last(ws') == w'
    decreases |path|
  {
    ws', steps' := ws, steps;
    if path != [] {
      assert !path[0].Record?;
      ws', steps' := GoOn(ws, steps, path[0]);
      ws', steps' := GoAlong(ws', steps', path[1..], w');
      assert steps + path == (steps + [path[0]]) + path[1..];
    }
  }

  /** A delivery that has started its attempt on row `k` and has worked on it. */
  predicate AtWork(w: World, d: nat, k: nat, run: TaskRun, attempt: int) {
    && d in w.workers && w.workers[d] == Worker(run.runId, run.task, Executing(attempt))
    && k < |w.rows| && w.rows[k].run == run
  }

  /** The outcome of the attempt is recorded and about to be answered. */
  predicate Recorded(w: World, w': World, d: nat, runId: nat, attempt: int, result: ExecResult, now: int) {
    var write := FinishWrite(result, attempt, w.maxAttempts);
    && w'.rows == WriteStatus(w.rows, runId, write, now)
    && d in w'.workers && w'.workers[d].phase == Responding(HttpStatusFor(WrittenStatus(write)))
  }

  /** Recording the outcome keeps the route, because an execution without follow-up needs none. */
  lemma RecordWithoutFollowUp(ws: seq<World>, steps: seq<Step>, d: nat, k: nat, run: TaskRun, attempt: int,
                              result: ExecResult, now: int)
    returns (ws': seq<World>, steps': seq<Step>)
    requires IsRun(ws, steps) && IsRouted(ws, steps) && AtWork(Last(ws), d, k, run, attempt)
    requires result.Err? || FollowUp(run.task).None?
    ensures IsRun(ws', steps') && IsRouted(ws', steps') && Continues(ws, steps, ws', steps')
    ensures Recorded(Last(ws), Last(ws'), d, run.runId, attempt, result, now)
  {
    InvariantHolds(ws, steps, |steps|);
    OnlyRow(Last(ws).rows, k);
    ws', steps' := GoOn(ws, steps, Record(d, result, now));
  }

  lemma OnlyRow(rows: seq<Row>, k: nat)
    requires UniqueIds(rows) && k < |rows|
    ensures forall j | 0 <= j < |rows| && rows[j].run.runId == rows[k].run.runId :: j == k
  {
  }

  /** ... and an execution whose follow-up was answered without an error may be recorded as a success. */
  lemma RecordAfterFollowUp(ws: seq<World>, steps: seq<Step>, d: nat, k: nat, run: TaskRun, attempt: int, b: nat,
                            s: nat, now: int)
    returns (ws': seq<World>, steps': seq<Step>)
    requires IsRun(ws, steps) && IsRouted(ws, steps) && AtWork(Last(ws), d, k, run, attempt) && b < |steps|
    requires steps[b].StartSubmit? && steps[b].s == s && d in ws[b].workers && ws[b].workers[d].phase.Executing?
    requires s in Last(ws).submitters && FollowsUp(Last(ws).submitters[s], run)
    requires Last(ws).submitters[s].phase.Answered? && !Last(ws).submitters[s].phase.outcome.Errored?
    ensures IsRun(ws', steps') && IsRouted(ws', steps') && Continues(ws, steps, ws', steps')
    ensures Recorded(Last(ws), Last(ws'), d, run.runId, attempt, Ok, now)
  {
    InvariantHolds(ws, steps, |steps|);
    OnlyRow(Last(ws).rows, k);
    var step, n := Record(d, Ok, now), |steps|;
    assert FollowedUp(ws + [Next(Last(ws), step)], steps + [step], b, n, s, run);
    ws', steps' := GoOn(ws, steps, step);
  }

  /** Begin and mark an attempt on a row that can be attempted. */
  lemma StartWork(ws: seq<World>, steps: seq<Step>, d: nat, k: nat, run: TaskRun, attempt: int, now: int)
    returns (ws': seq<World>, steps': seq<Step>)
    requires IsRun(ws, steps) && IsRouted(ws, steps) && k < |Last(ws).rows| && Last(ws).rows[k].run == run
    requires d in Last(ws).workers && Last(ws).workers[d] == Worker(run.runId, run.task, Received)
    requires !(run.task.Spark? && run.task.captureIds == [])
    requires DecideNextAttempt(FindRun(Last(ws).rows, run.runId)) == Some(attempt)
    ensures IsRun(ws', steps') && IsRouted(ws', steps') && Continues(ws, steps, ws', steps')
    ensures AtWork(Last(ws'), d, k, run, attempt)
    ensures var w, w' := Last(ws), Last(ws');
      && w'.rows == WriteStatus(w.rows, run.runId, Start(attempt), now)
      && w'.submitters == w.submitters && w'.maxAttempts == w.maxAttempts
  {
    ws', steps' := GoOn(ws, steps, Begin(d));
    ws', steps' := GoOn(ws', steps', Mark(d, now));
  }

  /** Every run can be continued by an undisturbed delivery as the code makes it, and stays routed: an attempted
      delivery, its follow-up submission included, ends with the table and the answer of `DeliverAlone`. */
  lemma LoneDeliveryIsRouted(ws: seq<World>, steps: seq<Step>, d: nat, s: nat, k: nat, run: TaskRun, exec: ExecResult,
                             io: Inputs, startedAt: int, finishedAt: int)
    returns (ws': seq<World>, steps': seq<Step>)
    requires IsRun(ws, steps) && IsRouted(ws, steps) && k < |Last(ws).rows| && Last(ws).rows[k].run == run
    requires d in Last(ws).workers && Last(ws).workers[d] == Worker(run.runId, run.task, Received)
    requires s !in Last(ws).submitters && !(run.task.Spark? && run.task.captureIds == [])
    requires DecideNextAttempt(FindRun(Last(ws).rows, run.runId)).Some?
    ensures IsRun(ws', steps') && IsRouted(ws', steps') && Continues(ws, steps, ws', steps')
    ensures var w, w' := Last(ws), Last(ws');
      var r := DeliverAlone(w.rows, run, exec, io, startedAt, finishedAt, w.maxAttempts);
      w'.rows == r.rows && d in w'.workers && w'.workers[d].phase == Responding(r.code)
  {
    var attempt := DecideNextAttempt(FindRun(Last(ws).rows, run.runId)).value;
    ws', steps' := StartWork(ws, steps, d, k, run, attempt, startedAt);
    var child := FollowUp(run.task);
    if exec.Ok? && child.Some? {
      ws', steps' := FollowUpAndRecord(ws', steps', d, s, k, run, attempt, io, finishedAt);
    } else {
      ws', steps' := RecordWithoutFollowUp(ws', steps', d, k, run, attempt, exec, finishedAt);
    }
  }

  lemma FollowUpAndRecord(ws: seq<World>, steps: seq<Step>, d: nat, s: nat, k: nat, run: TaskRun, attempt: int,
                          io: Inputs, now: int)
    returns (ws': seq<World>, steps': seq<Step>)
    requires IsRun(ws, steps) && IsRouted(ws, steps) && AtWork(Last(ws), d, k, run, attempt)
    requires s !in Last(ws).submitters && FollowUp(run.task).Some?
    ensures IsRun(ws', steps') && IsRouted(ws', steps') && Continues(ws, steps, ws', steps')
    ensures var w, w' := Last(ws), Last(ws'); var work := AfterExec(w.rows, run, Ok, io);
      var write := FinishWrite(work.result, attempt, w.maxAttempts);
      && w'.rows == WriteStatus(work.rows, run.runId, write, now)
      && d in w'.workers && w'.workers[d].phase == Responding(HttpStatusFor(WrittenStatus(write)))
  {
    var b := |steps|;
    var child := FollowUp(run.task).value;
    var outcome := Submit(Last(ws).rows, child, LogicalIdOf(child), run.backfillId, io).outcome;
    ws', steps' := FollowUpAlong(ws, steps, d, s, k, run, attempt, io);
    if outcome.Errored? {
      ws', steps' := RecordWithoutFollowUp(ws', steps', d, k, run, attempt, Err(500, 500), now);
    } else {
      ws', steps' := RecordAfterFollowUp(ws', steps', d, k, run, attempt, b, s, now);
    }
  }

  /** The follow-up submission up to its answer. */
  lemma FollowUpAlong(ws: seq<World>, steps: seq<Step>, d: nat, s: nat, k: nat, run: TaskRun, attempt: int, io: Inputs)
    returns (ws': seq<World>, steps': seq<Step>)
    requires IsRun(ws, steps) && IsRouted(ws, steps) && AtWork(Last(ws), d, k, run, attempt)
    requires s !in Last(ws).submitters && FollowUp(run.task).Some?
    ensures IsRun(ws', steps') && IsRouted(ws', steps') && Continues(ws, steps, ws', steps')
    ensures |steps'| > |steps| && steps'[|steps|] == StartSubmit(s, FollowUp(run.task).value, run.backfillId)
    ensures AtWork(Last(ws'), d, k, run, attempt) && Last(ws').maxAttempts == Last(ws).maxAttempts
    ensures var child := FollowUp(run.task).value; var w' := Last(ws');
      var r := Submit(Last(ws).rows, child, LogicalIdOf(child), run.backfillId, io);
      && w'.rows == r.rows && s in w'.submitters && w'.submitters[s].phase == Answered(r.outcome)
      && FollowsUp(w'.submitters[s], run)
  {
    var b, child := |steps|, FollowUp(run.task).value;
    ws', steps' := GoOn(ws, steps, StartSubmit(s, child, run.backfillId));
    var path, end := SubmitIsAProtocolPath(Last(ws'), s, io);
    ws', steps' := GoAlong(ws', steps', path, end);
    RowsPersist(ws', steps', b, |steps'|);
  }
}
