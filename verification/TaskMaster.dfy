/** The sequential code of `TaskMaster` and `TaskRunTracker`, proved against the protocol's steps. */
module TaskMasters {
  import opened Options
  import opened Statuses
  import opened Tasks
  import opened RunTable
  import opened Protocol

  // ---- What one uninterrupted submission does -------------------------------------------------

  /** The table after it, the run handed to the queue (if any), and the answer. */
  datatype Submission = Submission(rows: seq<Row>, handed: Option<TaskRun>, outcome: Outcome)

  /** The foreign inputs of a submission: the fresh run id, whether the queue accepts, and the clock. */
  datatype Inputs = Inputs(runId: nat, accepts: bool, insertedAt: int, rejectedAt: int)

  function Submit(rows: seq<Row>, task: Task, logicalId: string, backfill: Option<string>, io: Inputs): Submission {
    match FindKey(rows, backfill, logicalId)
    case Some(row) => Submission(rows, None, AlreadySubmitted(row.run.runId, row.run.runNumber))
    case None =>
      match DecideNextRun(LatestRun(rows, logicalId))
      case None => Submission(rows, None, RefusedInFlight)
      case Some(next) =>
        var run := TaskRun(logicalId, io.runId, next, backfill, task);
        match InsertVerdict(rows, run)
        case IdCollision => Submission(rows, None, Errored)
        case Conflict => Submission(rows, None, RefusedInFlight)
        case Inserted =>
          Submission(AfterHandOver(rows, run, io), Some(run), if io.accepts then Enqueued(io.runId, next) else Errored)
  }

  /** The highest-numbered run of the task is in flight. */
  predicate TaskBusy(rows: seq<Row>, logicalId: string) {
    exists k | 0 <= k < |rows| ::
      rows[k].run.logicalId == logicalId && InFlight(rows[k])
      && rows[k].run.runNumber == RunCount(rows, |rows|, logicalId)
  }

  /** Left alone on a sound table, a submission is decided by three questions: is the tagged key taken,
      is the latest run in flight, is the run id fresh. Otherwise exactly one row is added, with the
      next ordinal, queued or marked as a failed submission. It never loses a race. */
  lemma SubmitCases(rows: seq<Row>, task: Task, logicalId: string, backfill: Option<string>, io: Inputs)
    requires TableOk(rows)
    ensures var r := Submit(rows, task, logicalId, backfill, io);
      && (r.outcome.AlreadySubmitted? <==> KeyTaken(rows, backfill, logicalId))
      && (r.outcome.AlreadySubmitted? ==> exists k | 0 <= k < |rows| ::
            HasKey(rows[k].run, backfill, logicalId)
            && r.outcome == AlreadySubmitted(rows[k].run.runId, rows[k].run.runNumber))
      && (r.outcome.RefusedInFlight? <==> !KeyTaken(rows, backfill, logicalId) && TaskBusy(rows, logicalId))
      && (r.handed.Some? <==>
            !KeyTaken(rows, backfill, logicalId) && !TaskBusy(rows, logicalId) && !IdTaken(rows, io.runId))
      && (r.handed.None? ==> r.rows == rows)
      && (r.handed.Some? ==>
            && r.handed.value == TaskRun(logicalId, io.runId, RunCount(rows, |rows|, logicalId) + 1, backfill, task)
            && |r.rows| == |rows| + 1 && r.rows[..|rows|] == rows
            && r.rows[|rows|].run == r.handed.value && r.rows[|rows|].target == TargetOf(task)
            && r.rows[|rows|].attempts == 0 && r.rows[|rows|].createdAt == io.insertedAt
            && HasStatus(r.rows[|rows|], if io.accepts then Queued else SubmissionFailed)
            && r.rows[|rows|].errorCode == (if io.accepts then None else Some(500))
            && r.outcome == if io.accepts then Enqueued(io.runId, r.handed.value.runNumber) else Errored)
      && (r.handed.None? && r.outcome.Errored? <==>
            !KeyTaken(rows, backfill, logicalId) && !TaskBusy(rows, logicalId) && IdTaken(rows, io.runId))
      && TableOk(r.rows) && Extends(rows, r.rows)
  {
    var r := Submit(rows, task, logicalId, backfill, io);
    var count := RunCount(rows, |rows|, logicalId);
    LatestIsCount(rows, logicalId);
    var latest := LatestRun(rows, logicalId);
    if FindKey(rows, backfill, logicalId).None? {
      LatestInFlight(rows, logicalId);
      match DecideNextRun(latest)
      case None =>
      case Some(next) =>
        assert next == count + 1;
        OrdinalsAreExactlyOneToN(rows, logicalId, next);
        var run := TaskRun(logicalId, io.runId, next, backfill, task);
        if InsertVerdict(rows, run).Inserted? {
          HandedOverRow(rows, run, io);
        }
    }
  }

  /** The table after an accepted insert and the queue's answer. */
  function AfterHandOver(rows: seq<Row>, run: TaskRun, io: Inputs): seq<Row> {
    var queued := rows + [NewRow(run, io.insertedAt)];
    if io.accepts then queued else WriteStatus(queued, io.runId, Reject(500), io.rejectedAt)
  }

  lemma HandedOverRow(rows: seq<Row>, run: TaskRun, io: Inputs)
    requires TableOk(rows) && run.runId == io.runId && run.runNumber == RunCount(rows, |rows|, run.logicalId) + 1
    requires InsertVerdict(rows, run).Inserted?
    ensures var later := AfterHandOver(rows, run, io);
      && TableOk(later) && Extends(rows, later) && |later| == |rows| + 1 && later[..|rows|] == rows
      && later[|rows|].run == run && later[|rows|].target == TargetOf(run.task) && later[|rows|].attempts == 0
      && later[|rows|].createdAt == io.insertedAt && later[|rows|].errorCode == (if io.accepts then None else Some(500))
      && HasStatus(later[|rows|], if io.accepts then Queued else SubmissionFailed)
  {
    TableSurvivesInsert(rows, |rows|, run, io.insertedAt);
    if !io.accepts {
      TableSurvivesWrite(rows + [NewRow(run, io.insertedAt)], io.runId, Reject(500), io.rejectedAt);
    }
  }

  /** Asking whether the latest run is in flight is asking about the row with the greatest ordinal. */
  lemma LatestInFlight(rows: seq<Row>, logicalId: string)
    requires TableOk(rows)
    ensures DecideNextRun(LatestRun(rows, logicalId)).None? <==> TaskBusy(rows, logicalId)
  {
    LatestIsCount(rows, logicalId);
    match LatestRun(rows, logicalId)
    case None =>
    case Some(row) =>
      var j :| 0 <= j < |rows| && rows[j] == row;
      forall k | 0 <= k < |rows| && rows[k].run.logicalId == logicalId && rows[k].run.runNumber == row.run.runNumber
        ensures k == j
      {
        if k < j {
          LaterRowsCountHigher(rows, k, j);
        } else if j < k {
          LaterRowsCountHigher(rows, j, k);
        }
      }
  }

  // ---- The same submission as protocol steps --------------------------------------------------

  /** `steps`, taken in order from `w`, are all enabled and end in `w'`. */
  predicate Path(w: World, steps: seq<Step>, w': World)
    decreases |steps|
  {
    if steps == [] then w' == w
    else Enabled(w, steps[0]) && Path(Next(w, steps[0]), steps[1..], w')
  }

  lemma {:induction false} PathExtends(w: World, steps: seq<Step>, mid: World, step: Step)
    requires Path(w, steps, mid) && Enabled(mid, step)
    ensures Path(w, steps + [step], Next(mid, step))
    decreases |steps|
  {
    if steps == [] {
      assert ([step])[1..] == [];
    } else {
      PathExtends(Next(w, steps[0]), steps[1..], mid, step);
      assert (steps + [step])[1..] == steps[1..] + [step];
    }
  }

  /** How far an undisturbed submitter has come: the phase it reached and the table it left, with the workers
      as they were. */
  predicate Came(w: World, w': World, s: nat, phase: SubmitPhase, rows: seq<Row>, calls: seq<nat>) {
    && s in w.submitters && s in w'.submitters
    && w'.submitters[s].phase == phase && w'.rows == rows && w'.enqueueCalls == calls
    && w'.submitters[s].task == w.submitters[s].task && w'.submitters[s].backfill == w.submitters[s].backfill
    && w'.submitters[s].logicalId == w.submitters[s].logicalId
    && w'.submitters == w.submitters[s := w'.submitters[s]]
    && w'.workers == w.workers && w'.maxAttempts == w.maxAttempts
  }

  /** No attempt is recorded along the way. */
  predicate NoRecord(steps: seq<Step>) {
    forall i | 0 <= i < |steps| :: !steps[i].Record?
  }

  lemma SoloUpToInsert(w: World, s: nat) returns (steps: seq<Step>, w': World)
    requires s in w.submitters && w.submitters[s].phase.Checking?
    ensures Path(w, steps, w') && NoRecord(steps)
    ensures var sub := w.submitters[s];
      var latest := LatestRun(w.rows, sub.logicalId);
      match FindKey(w.rows, sub.backfill, sub.logicalId)
      case Some(row) =>
        Came(w, w', s, Answered(AlreadySubmitted(row.run.runId, row.run.runNumber)), w.rows, w.enqueueCalls)
      case None =>
        match DecideNextRun(latest)
        case None => Came(w, w', s, Answered(RefusedInFlight), w.rows, w.enqueueCalls)
        case Some(next) => Came(w, w', s, Inserting(next), w.rows, w.enqueueCalls)
  {
    var sub := w.submitters[s];
    w' := Next(w, CheckKey(s));
    PathExtends(w, [], w, CheckKey(s));
    steps := [] + [CheckKey(s)];
    if FindKey(w.rows, sub.backfill, sub.logicalId).None? {
      PathExtends(w, steps, w', ReadLatest(s));
      steps, w' := steps + [ReadLatest(s)], Next(w', ReadLatest(s));
      if DecideNextRun(LatestRun(w.rows, sub.logicalId)).None? {
        PathExtends(w, steps, w', RecheckRefusal(s));
        steps, w' := steps + [RecheckRefusal(s)], Next(w', RecheckRefusal(s));
      }
    }
  }

  lemma SoloFromInsert(w: World, s: nat, io: Inputs) returns (steps: seq<Step>, w': World)
    requires s in w.submitters && w.submitters[s].phase.Inserting?
    requires FindKey(w.rows, w.submitters[s].backfill, w.submitters[s].logicalId).None?
    ensures Path(w, steps, w') && NoRecord(steps)
    ensures var sub := w.submitters[s]; var next := sub.phase.next; var run := RunOf(sub, io.runId, next);
      var queued := w.rows + [NewRow(run, io.insertedAt)];
      match InsertVerdict(w.rows, run)
      case IdCollision => Came(w, w', s, Answered(Errored), w.rows, w.enqueueCalls)
      case Conflict => Came(w, w', s, Answered(RefusedInFlight), w.rows, w.enqueueCalls)
      case Inserted =>
        if io.accepts then Came(w, w', s, Answered(Enqueued(io.runId, next)), queued, w.enqueueCalls + [io.runId])
        else
          Came(w, w', s, Answered(Errored), WriteStatus(queued, io.runId, Reject(500), io.rejectedAt),
            w.enqueueCalls + [io.runId])
  {
    var sub := w.submitters[s];
    var verdict := InsertVerdict(w.rows, RunOf(sub, io.runId, sub.phase.next));
    var insert := Insert(s, io.runId, io.insertedAt);
    PathExtends(w, [], w, insert);
    steps, w' := [] + [insert], Next(w, insert);
    if verdict.Conflict? {
      PathExtends(w, steps, w', RecheckLoss(s));
      steps, w' := steps + [RecheckLoss(s)], Next(w', RecheckLoss(s));
    } else if verdict.Inserted? {
      var more, end := SoloHandOver(w', s, io);
      PathJoin(w, steps, w', more, end);
      steps, w' := steps + more, end;
    }
  }

  lemma SoloHandOver(w: World, s: nat, io: Inputs) returns (steps: seq<Step>, w': World)
    requires s in w.submitters && w.submitters[s].phase.Enqueueing?
    ensures Path(w, steps, w') && NoRecord(steps)
    ensures var phase := w.submitters[s].phase; var calls := w.enqueueCalls + [phase.runId];
      if io.accepts then Came(w, w', s, Answered(Enqueued(phase.runId, phase.next)), w.rows, calls)
      else Came(w, w', s, Answered(Errored), WriteStatus(w.rows, phase.runId, Reject(500), io.rejectedAt), calls)
  {
    var enqueue, mark := Enqueue(s, io.accepts), MarkRejected(s, io.rejectedAt);
    PathExtends(w, [], w, enqueue);
    steps, w' := [] + [enqueue], Next(w, enqueue);
    if !io.accepts {
      PathExtends(w, steps, w', mark);
      steps, w' := steps + [mark], Next(w', mark);
    }
  }

  lemma {:induction false} PathJoin(w: World, steps: seq<Step>, mid: World, more: seq<Step>, w': World)
    requires Path(w, steps, mid) && Path(mid, more, w')
    ensures Path(w, steps + more, w')
    decreases |steps|
  {
    if steps == [] {
      assert steps + more == more;
    } else {
      PathJoin(Next(w, steps[0]), steps[1..], mid, more, w');
      PathCons(w, steps[0], steps[1..] + more, w');
      HeadOfBoth(steps, more);
    }
  }

  lemma HeadOfBoth(steps: seq<Step>, more: seq<Step>)
    requires steps != []
    ensures steps + more == [steps[0]] + (steps[1..] + more)
  {
  }

  lemma PathCons(w: World, step: Step, rest: seq<Step>, w': World)
    requires Enabled(w, step) && Path(Next(w, step), rest, w')
    ensures Path(w, [step] + rest, w')
  {
    assert ([step] + rest)[1..] == rest;
  }

  /** An undisturbed submission is a path of the protocol that leaves the same table, makes the same
      queue call and gives the same answer. */
  lemma SubmitIsAProtocolPath(w: World, s: nat, io: Inputs) returns (steps: seq<Step>, w': World)
    requires s in w.submitters && w.submitters[s].phase.Checking?
    ensures Path(w, steps, w') && NoRecord(steps)
    ensures var sub := w.submitters[s];
      var r := Submit(w.rows, sub.task, sub.logicalId, sub.backfill, io);
      Came(w, w', s, Answered(r.outcome), r.rows, w.enqueueCalls + if r.handed.Some? then [io.runId] else [])
  {
    var sub := w.submitters[s];
    assert w.enqueueCalls + [] == w.enqueueCalls;
    steps, w' := SoloUpToInsert(w, s);
    if FindKey(w.rows, sub.backfill, sub.logicalId).None? && DecideNextRun(LatestRun(w.rows, sub.logicalId)).Some? {
      var more, end := SoloFromInsert(w', s, io);
      PathJoin(w, steps, w', more, end);
      steps, w' := steps + more, end;
    }
  }

  // ---- Deliveries -----------------------------------------------------------------------------

  /** The follow-up of a finished illumination: a projected V2 result is indexed, under the same owner. */
  function FollowUp(task: Task): Option<Task> {
    if task.Illuminate? && task.projectsV2 then Some(SearchIndex(task.captureId, task.owner)) else None
  }

  /** The table after the work of an attempt, the follow-up handed to the queue, and the attempt's result. */
  datatype Work = Work(rows: seq<Row>, handed: Option<TaskRun>, result: ExecResult)

  /** A successful execution still has to submit its follow-up, tagged like its parent. */
  function AfterExec(rows: seq<Row>, run: TaskRun, exec: ExecResult, io: Inputs): Work {
    match FollowUp(run.task)
    case Some(child) =>
      if exec.Err? then Work(rows, None, exec)
      else
        var r := Submit(rows, child, LogicalIdOf(child), run.backfillId, io);
        Work(r.rows, r.handed, if r.outcome.Errored? then Err(500, 500) else Ok)
    case None => Work(rows, None, exec)
  }

  datatype Delivery = Delivery(rows: seq<Row>, handed: Option<TaskRun>, attempt: Option<int>, code: int)

  function DeliverAlone(rows: seq<Row>, run: TaskRun, exec: ExecResult, io: Inputs,
                        startedAt: int, finishedAt: int, maxAttempts: int): Delivery
  {
    if run.task.Spark? && run.task.captureIds == [] then Delivery(rows, None, None, 400)
    else
      match DecideNextAttempt(FindRun(rows, run.runId))
      case None => Delivery(rows, None, None, 204)
      case Some(attempt) =>
        var started := WriteStatus(rows, run.runId, Start(attempt), startedAt);
        var work := AfterExec(started, run, exec, io);
        var write := FinishWrite(work.result, attempt, maxAttempts);
        Delivery(WriteStatus(work.rows, run.runId, write, finishedAt), work.handed, Some(attempt),
          HttpStatusFor(WrittenStatus(write)))
  }

  /** The work of an undisturbed attempt, as seen by the protocol: nothing, or one more submitter. */
  lemma WorkIsAProtocolPath(w: World, s: nat, run: TaskRun, exec: ExecResult, io: Inputs)
    returns (steps: seq<Step>, w': World)
    requires s !in w.submitters
    ensures Path(w, steps, w')
    ensures var work := AfterExec(w.rows, run, exec, io);
      && w'.rows == work.rows && w'.workers == w.workers && w'.maxAttempts == w.maxAttempts
      && w'.enqueueCalls == w.enqueueCalls + if work.handed.Some? then [io.runId] else []
  {
    steps, w' := [], w;
    var child := FollowUp(run.task);
    if exec.Ok? && child.Some? {
      var start := StartSubmit(s, child.value, run.backfillId);
      steps, w' := SubmitIsAProtocolPath(Next(w, start), s, io);
      PathCons(w, start, steps, w');
      steps := [start] + steps;
    } else {
      assert w.enqueueCalls + [] == w.enqueueCalls;
    }
  }

  /** An undisturbed delivery, its follow-up submission included, is a path of the protocol that leaves the
      same table, makes the same queue calls and gives the same answer. */
  lemma DeliveryIsAProtocolPath(w: World, d: nat, s: nat, run: TaskRun, exec: ExecResult, io: Inputs,
                                startedAt: int, finishedAt: int)
    returns (steps: seq<Step>, w': World)
    requires d in w.workers && w.workers[d] == Worker(run.runId, run.task, Received) && s !in w.submitters
    ensures Path(w, steps, w')
    ensures var r := DeliverAlone(w.rows, run, exec, io, startedAt, finishedAt, w.maxAttempts);
      && d in w'.workers && w'.rows == r.rows && w'.workers[d].phase == Responding(r.code)
      && w'.enqueueCalls == w.enqueueCalls + if r.handed.Some? then [io.runId] else []
  {
    var begun := Next(w, Begin(d));
    if !begun.workers[d].phase.Marking? {
      assert w.enqueueCalls + [] == w.enqueueCalls;
      PathExtends(w, [], w, Begin(d));
      return [] + [Begin(d)], begun;
    }
    var marked := Next(begun, Mark(d, startedAt));
    steps, w' := WorkIsAProtocolPath(marked, s, run, exec, io);
    var record := Record(d, AfterExec(marked.rows, run, exec, io).result, finishedAt);
    PathExtends(marked, steps, w', record);
    PathCons(begun, Mark(d, startedAt), steps + [record], Next(w', record));
    PathCons(w, Begin(d), [Mark(d, startedAt)] + (steps + [record]), Next(w', record));
    steps := [Begin(d)] + ([Mark(d, startedAt)] + (steps + [record]));
    w' := Next(w', record);
  }

  /** A delivered run that is already settled is taken up again exactly when it is an exhausted
      `CompleteFailure`; any other settled run is acknowledged and left alone. */
  lemma SettledRunIsResurrectedIffExhausted(rows: seq<Row>, k: nat, exec: ExecResult, io: Inputs,
                                            startedAt: int, finishedAt: int, maxAttempts: int)
    requires TableOk(rows) && k < |rows| && !InFlight(rows[k]) && Submittable(rows[k].run.task)
    ensures var r := DeliverAlone(rows, rows[k].run, exec, io, startedAt, finishedAt, maxAttempts);
      && (r.attempt.Some? <==> HasStatus(rows[k], CompleteFailure))
      && (r.attempt.None? ==> r.rows == rows && r.code == 204)
      && (r.attempt.Some? ==> r.attempt.value == rows[k].attempts + 1)
  {
    var found := FindRun(rows, rows[k].run.runId).value;
    var j :| 0 <= j < |rows| && rows[j] == found;
    assert j == k;
  }

  /** When nothing else happens during the follow-up submission of a projected V2 illumination and the attempt
      succeeds, the parent's tag is taken for the index task or an index run for the capture is in flight.
      Under interleaving neither need hold, see `Counterexamples` and `FollowUps`. */
  lemma LoneSuccessHasItsFollowUp(rows: seq<Row>, run: TaskRun, exec: ExecResult, io: Inputs)
    requires TableOk(rows) && FollowUp(run.task).Some?
    ensures var child := FollowUp(run.task).value;
      var work := AfterExec(rows, run, exec, io);
      && TableOk(work.rows) && Extends(rows, work.rows)
      && (work.handed.Some? ==> work.handed.value.task == child && work.handed.value.backfillId == run.backfillId)
      && TargetOf(child).ownerId == TargetOf(run.task).ownerId
      && TargetOf(child).entityId == TargetOf(run.task).entityId
      && (work.result.Ok? ==>
            || KeyTaken(work.rows, run.backfillId, LogicalIdOf(child))
            || exists k | 0 <= k < |work.rows| ::
                 work.rows[k].run.logicalId == LogicalIdOf(child) && InFlight(work.rows[k]))
  {
    var child := FollowUp(run.task).value;
    var logicalId := LogicalIdOf(child);
    SubmitCases(rows, child, logicalId, run.backfillId, io);
    var r := Submit(rows, child, logicalId, run.backfillId, io);
    if exec.Ok? && r.outcome.Enqueued? {
      assert r.rows[|rows|].run.logicalId == logicalId && InFlight(r.rows[|rows|]);
    }
  }

  // ---- What a delivery means ------------------------------------------------------------------

  /** What a finished attempt leaves in a row that has started it. */
  predicate RowFinished(row: Row, later: Row, result: ExecResult, attempt: int, maxAttempts: int, now: int) {
    var ms := if row.startedAt.Some? then Some(now - row.startedAt.value) else None;
    && later.run == row.run && later.target == row.target
    && later.createdAt == row.createdAt && later.startedAt == row.startedAt && later.updatedAt == now
    && later.attempts == attempt && FromI32(later.statusCode).Some?
    && OutcomeIs(FromI32(later.statusCode).value, result, attempt, maxAttempts)
    && later.successMs == (if result.Ok? then ms else row.successMs)
    && later.errorMs == (if result.Err? then ms else row.errorMs)
    && later.errorCode == if result.Err? then Some(result.innerStatus) else row.errorCode
  }

  lemma AttemptFinishes(row: Row, result: ExecResult, attempt: int, maxAttempts: int, now: int)
    ensures var later := Apply(row, FinishWrite(result, attempt, maxAttempts), now);
      RowFinished(row, later, result, attempt, maxAttempts, now)
    ensures OutcomeIs(WrittenStatus(FinishWrite(result, attempt, maxAttempts)), result, attempt, maxAttempts)
  {
  }

  /** Work that is done or can never be done is not taken up. */
  predicate Ignored(rows: seq<Row>, runId: nat) {
    exists k | 0 <= k < |rows| ::
      rows[k].run.runId == runId && (HasStatus(rows[k], CompleteSuccess) || HasStatus(rows[k], SubmissionFailed))
  }

  /** One more attempt than the row counts, the first for a run without a row. */
  predicate IsAttempt(rows: seq<Row>, runId: nat, attempt: int) {
    && (!IdTaken(rows, runId) ==> attempt == 1)
    && forall k | 0 <= k < |rows| && rows[k].run.runId == runId :: attempt == rows[k].attempts + 1
  }

  /** A V2 illumination whose projection is persisted has a document to index. */
  predicate Projected(task: Task) {
    task.Illuminate? && task.projectsV2
  }

  /** The index task keeps the capture and the owner. */
  function IndexTask(task: Task): Task
    requires Projected(task)
  {
    SearchIndex(task.captureId, task.owner)
  }

  /** The follow-up finds its task busy: the highest-numbered run is in flight or is the one being delivered. */
  predicate FollowUpBusy(rows: seq<Row>, runId: nat, logicalId: string) {
    exists k | 0 <= k < |rows| ::
      rows[k].run.logicalId == logicalId && (InFlight(rows[k]) || rows[k].run.runId == runId)
      && rows[k].run.runNumber == RunCount(rows, |rows|, logicalId)
  }

  /** A new follow-up run is inserted and handed to the queue. */
  predicate HandsOver(rows: seq<Row>, run: TaskRun, exec: ExecResult, io: Inputs) {
    exec.Ok? && Projected(run.task) &&
      var logicalId := LogicalIdOf(IndexTask(run.task));
      && !KeyTaken(rows, run.backfillId, logicalId) && !FollowUpBusy(rows, run.runId, logicalId)
      && !IdTaken(rows, io.runId)
  }

  /** The attempt succeeds: the execution did, and a follow-up, if there has to be one, was already submitted, was
      refused because one is in flight, or was accepted by the queue. */
  predicate WorkSucceeds(rows: seq<Row>, run: TaskRun, exec: ExecResult, io: Inputs) {
    exec.Ok? && (Projected(run.task) ==>
      var logicalId := LogicalIdOf(IndexTask(run.task));
      || KeyTaken(rows, run.backfillId, logicalId) || FollowUpBusy(rows, run.runId, logicalId)
      || (!IdTaken(rows, io.runId) && io.accepts))
  }

  /** An execution's own error counts as it is, a follow-up that errs as an internal one. */
  predicate IsResult(result: ExecResult, rows: seq<Row>, run: TaskRun, exec: ExecResult, io: Inputs) {
    && (result.Ok? <==> WorkSucceeds(rows, run, exec, io))
    && (exec.Err? ==> result == exec)
    && (result.Err? && exec.Ok? ==> result.httpStatus == 500 && result.innerStatus == 500)
  }

  /** The answer by which the queue acknowledges or redelivers. */
  predicate IsAnswer(code: int, result: ExecResult, attempt: int, maxAttempts: int) {
    && (code == 204 <==> result.Ok?)
    && (code == 500 <==> result.Err? && attempt < maxAttempts && 500 <= result.httpStatus < 600)
    && (code == 200 <==> result.Err? && !(attempt < maxAttempts && 500 <= result.httpStatus < 600))
  }

  /** What an undisturbed delivery does to the table, the queue and the answer. */
  ghost predicate DeliveryDone(rows: seq<Row>, later: seq<Row>, handed: seq<TaskRun>, code: int, run: TaskRun,
                         exec: ExecResult, io: Inputs, startedAt: int, finishedAt: int, maxAttempts: int)
  {
    if !Submittable(run.task) then code == 400 && later == rows && handed == []
    else if Ignored(rows, run.runId) then code == 204 && later == rows && handed == []
    else exists attempt, result ::
      AttemptDone(rows, later, handed, code, run, exec, io, startedAt, finishedAt, maxAttempts, attempt, result)
  }

  predicate AttemptDone(rows: seq<Row>, later: seq<Row>, handed: seq<TaskRun>, code: int, run: TaskRun,
                        exec: ExecResult, io: Inputs, startedAt: int, finishedAt: int, maxAttempts: int,
                        attempt: int, result: ExecResult)
  {
    && IsAttempt(rows, run.runId, attempt) && IsResult(result, rows, run, exec, io)
    && IsAnswer(code, result, attempt, maxAttempts)
    && RowsDelivered(rows, later, run.runId, attempt, result, startedAt, finishedAt, maxAttempts)
    && FollowUpDelivered(rows, later, handed, run, exec, io)
  }

  predicate RowsDelivered(rows: seq<Row>, later: seq<Row>, runId: nat, attempt: int, result: ExecResult,
                          startedAt: int, finishedAt: int, maxAttempts: int)
  {
    |rows| <= |later| && forall k | 0 <= k < |rows| ::
      if rows[k].run.runId == runId
      then RowFinished(rows[k].(startedAt := Some(startedAt)), later[k], result, attempt, maxAttempts, finishedAt)
      else later[k] == rows[k]
  }

  predicate FollowUpDelivered(rows: seq<Row>, later: seq<Row>, handed: seq<TaskRun>, run: TaskRun, exec: ExecResult,
                              io: Inputs)
  {
    if HandsOver(rows, run, exec, io) then
      var child := IndexTask(run.task);
      var number := RunCount(rows, |rows|, LogicalIdOf(child)) + 1;
      && handed == [TaskRun(LogicalIdOf(child), io.runId, number, run.backfillId, child)]
      && |later| == |rows| + 1 && later[|rows|].run == handed[0]
      && (io.runId != run.runId ==> HasStatus(later[|rows|], if io.accepts then Queued else SubmissionFailed))
    else handed == [] && |later| == |rows|
  }

  /** Starting the attempt changes no key, no ordinal and no id, and makes only the delivered run busy. */
  lemma StartedTable(rows: seq<Row>, run: TaskRun, attempt: int, now: int, logicalId: string, id: nat)
    requires TableOk(rows)
    ensures var started := WriteStatus(rows, run.runId, Start(attempt), now);
      && TableOk(started) && RunCount(started, |started|, logicalId) == RunCount(rows, |rows|, logicalId)
      && (KeyTaken(started, run.backfillId, logicalId) <==> KeyTaken(rows, run.backfillId, logicalId))
      && (IdTaken(started, id) <==> IdTaken(rows, id))
      && (TaskBusy(started, logicalId) <==> FollowUpBusy(rows, run.runId, logicalId))
  {
    var started := WriteStatus(rows, run.runId, Start(attempt), now);
    TableSurvivesWrite(rows, run.runId, Start(attempt), now);
    CountExtends(rows, started, |rows|, logicalId);
    forall k | 0 <= k < |rows|
      ensures started[k].run == rows[k].run
      ensures InFlight(started[k]) <==> InFlight(rows[k]) || rows[k].run.runId == run.runId
    {
    }
  }

  /** The work on a started table, as a follow-up submission that is decided by the table before the start. */
  lemma WorkMeans(rows: seq<Row>, run: TaskRun, exec: ExecResult, io: Inputs, attempt: int, now: int)
    requires TableOk(rows)
    ensures var started := WriteStatus(rows, run.runId, Start(attempt), now);
      var work := AfterExec(started, run, exec, io);
      && IsResult(work.result, rows, run, exec, io) && started <= work.rows
      && FollowUpDelivered(rows, work.rows, if work.handed.Some? then [work.handed.value] else [], run, exec, io)
  {
    var started := WriteStatus(rows, run.runId, Start(attempt), now);
    if exec.Ok? && Projected(run.task) {
      var child := IndexTask(run.task);
      var logicalId := LogicalIdOf(child);
      StartedTable(rows, run, attempt, now, logicalId, io.runId);
      SubmitCases(started, child, logicalId, run.backfillId, io);
      var r := Submit(started, child, logicalId, run.backfillId, io);
      assert r.handed.Some? ==> r.rows[..|started|] == started;
    }
  }

  lemma AttemptOf(rows: seq<Row>, runId: nat)
    requires UniqueIds(rows)
    ensures DecideNextAttempt(FindRun(rows, runId)).None? <==> Ignored(rows, runId)
    ensures var attempt := DecideNextAttempt(FindRun(rows, runId));
      attempt.Some? ==> IsAttempt(rows, runId, attempt.value)
  {
    var found := FindRun(rows, runId);
    if found.Some? {
      var j :| 0 <= j < |rows| && rows[j] == found.value;
      forall k | 0 <= k < |rows| && rows[k].run.runId == runId ensures k == j {
      }
    }
  }

  lemma FinishedRows(rows: seq<Row>, work: seq<Row>, runId: nat, attempt: int, result: ExecResult, startedAt: int,
                     finishedAt: int, maxAttempts: int)
    requires WriteStatus(rows, runId, Start(attempt), startedAt) <= work
    ensures var later := WriteStatus(work, runId, FinishWrite(result, attempt, maxAttempts), finishedAt);
      RowsDelivered(rows, later, runId, attempt, result, startedAt, finishedAt, maxAttempts)
  {
    var started := WriteStatus(rows, runId, Start(attempt), startedAt);
    forall k | 0 <= k < |rows| ensures work[k] == started[k] {
    }
    forall k | 0 <= k < |rows| && rows[k].run.runId == runId
      ensures var later := Apply(started[k], FinishWrite(result, attempt, maxAttempts), finishedAt);
        RowFinished(rows[k].(startedAt := Some(startedAt)), later, result, attempt, maxAttempts, finishedAt)
    {
      AttemptFinishes(started[k], result, attempt, maxAttempts, finishedAt);
    }
  }

  /** What a delivery comes to, said of the table before it: which deliveries are ignored, when an attempt
      succeeds, is retried or fails for good, what its row then holds, and which follow-up is handed over. */
  lemma DeliveryMeans(rows: seq<Row>, run: TaskRun, exec: ExecResult, io: Inputs, startedAt: int, finishedAt: int,
                      maxAttempts: int)
    requires TableOk(rows)
    ensures var r := DeliverAlone(rows, run, exec, io, startedAt, finishedAt, maxAttempts);
      DeliveryDone(rows, r.rows, if r.handed.Some? then [r.handed.value] else [], r.code, run, exec, io,
        startedAt, finishedAt, maxAttempts)
  {
    AttemptOf(rows, run.runId);
    var next := DecideNextAttempt(FindRun(rows, run.runId));
    if Submittable(run.task) && next.Some? {
      var attempt := next.value;
      var started := WriteStatus(rows, run.runId, Start(attempt), startedAt);
      var work := AfterExec(started, run, exec, io);
      WorkMeans(rows, run, exec, io, attempt, startedAt);
      FinishedRows(rows, work.rows, run.runId, attempt, work.result, startedAt, finishedAt, maxAttempts);
      AttemptAnswered(work.result, attempt, maxAttempts);
      var r := DeliverAlone(rows, run, exec, io, startedAt, finishedAt, maxAttempts);
      assert AttemptDone(rows, r.rows, if r.handed.Some? then [r.handed.value] else [], r.code, run, exec, io,
          startedAt, finishedAt, maxAttempts, attempt, work.result);
    }
  }

  lemma AttemptAnswered(result: ExecResult, attempt: int, maxAttempts: int)
    ensures var code := HttpStatusFor(WrittenStatus(FinishWrite(result, attempt, maxAttempts)));
      IsAnswer(code, result, attempt, maxAttempts)
  {
  }

  // ---- The code -------------------------------------------------------------------------------

  /** The answer after a re-check: the claiming run if there is one by now. */
  function OrRefused(claimed: Option<Outcome>): Outcome {
    if claimed.Some? then claimed.value else RefusedInFlight
  }

  /** What beginning an attempt means: a succeeded or never-submitted run is left alone, any other run is in
      progress from now on with one more attempt, a missing run is attempted without a row, and no other row
      changes. */
  predicate AttemptBegun(rows: seq<Row>, later: seq<Row>, runId: nat, attempt: Option<int>, now: int) {
    && |later| == |rows|
    && (!IdTaken(rows, runId) ==> attempt == Some(1))
    && forall k | 0 <= k < |rows| :: RowBegun(rows[k], later[k], runId, attempt, now)
  }

  predicate RowBegun(row: Row, later: Row, runId: nat, attempt: Option<int>, now: int) {
    if row.run.runId != runId then later == row
    else if HasStatus(row, CompleteSuccess) || HasStatus(row, SubmissionFailed) then attempt.None? && later == row
    else
      && attempt == Some(row.attempts + 1) && HasStatus(later, InProgress)
      && later.attempts == row.attempts + 1 && later.startedAt == Some(now) && later.run == row.run
  }

  lemma AttemptBegins(rows: seq<Row>, runId: nat, now: int)
    requires UniqueIds(rows)
    ensures var attempt := DecideNextAttempt(FindRun(rows, runId));
      var later := if attempt.Some? then WriteStatus(rows, runId, Start(attempt.value), now) else rows;
      AttemptBegun(rows, later, runId, attempt, now)
  {
    var found, attempt := FindRun(rows, runId), DecideNextAttempt(FindRun(rows, runId));
    var later := if attempt.Some? then WriteStatus(rows, runId, Start(attempt.value), now) else rows;
    forall k | 0 <= k < |rows| ensures RowBegun(rows[k], later[k], runId, attempt, now) {
      if rows[k].run.runId == runId {
        var j :| 0 <= j < |rows| && rows[j] == found.value;
        assert j == k;
      }
    }
  }

  class TaskRunTracker {
    var rows: seq<Row>

    constructor ()
      ensures rows == [] && TableOk(rows)
    {
      rows := [];
    }

    method InsertRun(run: TaskRun, now: int) returns (r: InsertResult)
      modifies this
      ensures r.IdCollision? <==> IdTaken(old(rows), run.runId)
      ensures r.Inserted? <==>
        && !IdTaken(old(rows), run.runId) && !OrdinalTaken(old(rows), run.logicalId, run.runNumber)
        && !KeyTaken(old(rows), run.backfillId, run.logicalId)
      ensures rows == if r.Inserted? then old(rows) + [NewRow(run, now)] else old(rows)
    {
      r := InsertVerdict(rows, run);
      if r.Inserted? {
        rows := rows + [NewRow(run, now)];
      }
    }

    /** Every status write goes through here; only the rows of this run change, in place. */
    method Write(runId: nat, write: StatusWrite, now: int)
      modifies this
      ensures rows == WriteStatus(old(rows), runId, write, now)
    {
      var i, written := 0, [];
      while i < |rows|
        invariant 0 <= i <= |rows| && rows == old(rows)
        invariant written == WriteStatus(rows, runId, write, now)[..i]
      {
        written := written + [if rows[i].run.runId == runId then Apply(rows[i], write, now) else rows[i]];
        i := i + 1;
      }
      rows := written;
    }
  }

  class TaskMaster {
    const tracker: TaskRunTracker
    const maxAttempts: int
    var handed: seq<TaskRun>

    constructor (tracker: TaskRunTracker, configured: Option<int>)
      ensures this.tracker == tracker && maxAttempts == MaxAttempts(configured) && handed == []
    {
      this.tracker := tracker;
      maxAttempts := MaxAttempts(configured);
      handed := [];
    }

    method AlreadySubmittedRun(backfill: Option<string>, logicalId: string) returns (r: Option<Outcome>)
      ensures r == match FindKey(tracker.rows, backfill, logicalId)
        case Some(row) => Some(AlreadySubmitted(row.run.runId, row.run.runNumber))
        case None => None
    {
      r := None;
      if backfill.Some? {
        var found := FindKey(tracker.rows, backfill, logicalId);
        if found.Some? {
          r := Some(AlreadySubmitted(found.value.run.runId, found.value.run.runNumber));
        }
      }
    }

    method SubmitInner(task: Task, backfill: Option<string>, io: Inputs) returns (outcome: Outcome)
      modifies this, tracker
      ensures var r := Submit(old(tracker.rows), task, LogicalIdOf(task), backfill, io);
        && tracker.rows == r.rows && outcome == r.outcome
        && handed == old(handed) + if r.handed.Some? then [r.handed.value] else []
      ensures old(TableOk(tracker.rows)) ==> TableOk(tracker.rows)
    {
      var logicalId := LogicalIdOf(task);
      ghost var before := tracker.rows;
      if TableOk(before) {
        SubmitCases(before, task, logicalId, backfill, io);
      }
      var claimed := AlreadySubmittedRun(backfill, logicalId);
      if claimed.Some? {
        return claimed.value;
      }
      var next := DecideNextRun(LatestRun(tracker.rows, logicalId));
      if next.None? {
        claimed := AlreadySubmittedRun(backfill, logicalId);
        return OrRefused(claimed);
      }
      var run := TaskRun(logicalId, io.runId, next.value, backfill, task);
      var inserted := tracker.InsertRun(run, io.insertedAt);
      if inserted.IdCollision? {
        return Errored;
      }
      if inserted.Conflict? {
        claimed := AlreadySubmittedRun(backfill, logicalId);
        return OrRefused(claimed);
      }
      handed := handed + [run];
      if !io.accepts {
        tracker.Write(io.runId, Reject(500), io.rejectedAt);
        return Errored;
      }
      return Enqueued(io.runId, next.value);
    }

    /** `begin_attempt`: ignore finished work, otherwise count one more attempt. */
    method BeginAttempt(run: TaskRun, now: int) returns (attempt: Option<int>)
      modifies tracker
      ensures attempt == DecideNextAttempt(FindRun(old(tracker.rows), run.runId))
      ensures tracker.rows == if attempt.Some?
                              then WriteStatus(old(tracker.rows), run.runId, Start(attempt.value), now)
                              else old(tracker.rows)
      ensures old(UniqueIds(tracker.rows)) ==> AttemptBegun(old(tracker.rows), tracker.rows, run.runId, attempt, now)
    {
      if UniqueIds(tracker.rows) {
        AttemptBegins(tracker.rows, run.runId, now);
      }
      attempt := DecideNextAttempt(FindRun(tracker.rows, run.runId));
      if attempt.Some? {
        tracker.Write(run.runId, Start(attempt.value), now);
      }
    }

    /** `finish_attempt`: record the outcome and decide on a retry. */
    method FinishAttempt(run: TaskRun, attempt: int, result: ExecResult, now: int) returns (status: TaskRunStatus)
      modifies tracker
      ensures tracker.rows == WriteStatus(old(tracker.rows), run.runId, FinishWrite(result, attempt, maxAttempts), now)
      ensures status == WrittenStatus(FinishWrite(result, attempt, maxAttempts))
      ensures OutcomeIs(status, result, attempt, maxAttempts)
      ensures forall k | 0 <= k < |old(tracker.rows)| ::
        if old(tracker.rows)[k].run.runId == run.runId
        then RowFinished(old(tracker.rows)[k], tracker.rows[k], result, attempt, maxAttempts, now)
        else tracker.rows[k] == old(tracker.rows)[k]
    {
      forall row: Row
        ensures RowFinished(row, Apply(row, FinishWrite(result, attempt, maxAttempts), now), result, attempt,
          maxAttempts, now)
      {
        AttemptFinishes(row, result, attempt, maxAttempts, now);
      }
      var write;
      if result.Ok? {
        write := Succeed(attempt);
      } else if attempt < maxAttempts && IsServerError(result.httpStatus) {
        write := Fail(ErrorWillRetry, attempt, result.innerStatus);
      } else {
        write := Fail(CompleteFailure, attempt, result.innerStatus);
      }
      tracker.Write(run.runId, write, now);
      status := WrittenStatus(write);
    }

    /** One webhook delivery: begin, execute, follow up, finish, answer. */
    method Post(run: TaskRun, exec: ExecResult, io: Inputs, startedAt: int, finishedAt: int) returns (code: int)
      modifies this, tracker
      ensures var r := DeliverAlone(old(tracker.rows), run, exec, io, startedAt, finishedAt, maxAttempts);
        && tracker.rows == r.rows && code == r.code
        && handed == old(handed) + if r.handed.Some? then [r.handed.value] else []
      ensures old(handed) <= handed
      ensures old(TableOk(tracker.rows)) ==>
        DeliveryDone(old(tracker.rows), tracker.rows, handed[|old(handed)|..], code, run, exec, io,
          startedAt, finishedAt, maxAttempts)
    {
      assert handed + [] == handed;
      if TableOk(tracker.rows) {
        DeliveryMeans(tracker.rows, run, exec, io, startedAt, finishedAt, maxAttempts);
      }
      if run.task.Spark? && run.task.captureIds == [] {
        return 400;
      }
      var attempt := BeginAttempt(run, startedAt);
      if attempt.None? {
        return 204;
      }
      var result := exec;
      var child := FollowUp(run.task);
      if exec.Ok? && child.Some? {
        var outcome := SubmitInner(child.value, run.backfillId, io);
        result := if outcome.Errored? then Err(500, 500) else Ok;
      }
      var status := FinishAttempt(run, attempt.value, result, finishedAt);
      return HttpStatusFor(status);
    }
  }
}
