/** The submission and execution protocol over `task_runs`: any number of submitters and workers, one
    step per database or queue effect, interleaved in any order. */
module Protocol {
  import opened Options
  import opened Statuses
  import opened Tasks
  import opened RunTable

  // ---- Decisions ------------------------------------------------------------------------------

  /** The next run ordinal, or none while the latest run is in flight. */
  function DecideNextRun(latest: Option<Row>): Option<int> {
    match latest
    case None => Some(1)
    case Some(row) => if InFlight(row) then None else Some(row.run.runNumber + 1)
  }

  /** The next attempt number, or none for a run that must be ignored. */
  function DecideNextAttempt(row: Option<Row>): Option<int> {
    match row
    case None => Some(1)
    case Some(r) =>
      if HasStatus(r, CompleteSuccess) || HasStatus(r, SubmissionFailed) then None else Some(r.attempts + 1)
  }

  /** An error carries the HTTP status that decides on a retry and the inner status that is recorded. */
  datatype ExecResult = Ok | Err(httpStatus: int, innerStatus: int)

  function FinishWrite(result: ExecResult, attempt: int, maxAttempts: int): StatusWrite {
    match result
    case Ok => Succeed(attempt)
    case Err(code, inner) =>
      if attempt < maxAttempts && IsServerError(code) then Fail(ErrorWillRetry, attempt, inner)
      else Fail(CompleteFailure, attempt, inner)
  }

  /** The outcome of an attempt: success, a retry while the budget lasts and the error is the server's, or a
      failure for good. */
  predicate OutcomeIs(status: TaskRunStatus, result: ExecResult, attempt: int, maxAttempts: int) {
    && (status.CompleteSuccess? <==> result.Ok?)
    && (status.ErrorWillRetry? <==> result.Err? && attempt < maxAttempts && 500 <= result.httpStatus < 600)
    && (status.CompleteFailure? <==> result.Err? && !(attempt < maxAttempts && 500 <= result.httpStatus < 600))
  }

  /** The builder's clamp: at least one attempt, three when unset. */
  function MaxAttempts(configured: Option<int>): (r: int)
    ensures r == match configured case Some(n) => (if n <= 1 then 1 else n) case None => 3
  {
    match configured
    case None => 3
    case Some(n) => if n < 1 then 1 else n
  }

  // ---- State ----------------------------------------------------------------------------------

  datatype Outcome =
    | Enqueued(runId: nat, runNumber: int)
    | AlreadySubmitted(runId: nat, runNumber: int)
    | RefusedInFlight
    | Errored

  /** Where a submitter stands in `submit_inner`, named by its next effect. */
  datatype SubmitPhase =
    | Checking
    | Reading
    | RecheckingRefusal
    | Inserting(next: int)
    | RecheckingLoss(next: int)
    | Enqueueing(runId: nat, next: int)
    | Rejecting(runId: nat, next: int)
    | Answered(outcome: Outcome)

  /** A submitter with its saved reads. `checkLen` and `readLen` are the table sizes at its key check
      and at its latest-run read; `observed` is the row that read returned. */
  datatype Submitter = Submitter(
    task: Task, backfill: Option<string>, logicalId: string, phase: SubmitPhase,
    checkLen: nat, readLen: nat, observed: Option<Row>)

  /** The queue's side of one run, with delivery bookkeeping. */
  datatype Message = Message(
    task: Task, accepted: bool, open: set<nat>,
    deliveries: nat, begun: nat, retried: nat, crashed: nat, acked: nat)

  datatype WorkPhase =
    | Received
    | Marking(attempt: int)
    | Executing(attempt: int)
    | Responding(code: int)
    | Closed
    | Crashed

  datatype Worker = Worker(runId: nat, task: Task, phase: WorkPhase)

  predicate Active(worker: Worker) {
    !worker.phase.Closed? && !worker.phase.Crashed?
  }

  datatype World = World(
    maxAttempts: int,
    rows: seq<Row>,
    submitters: map<nat, Submitter>,
    enqueueCalls: seq<nat>,
    queue: map<nat, Message>,
    workers: map<nat, Worker>)

  predicate Init(w: World) {
    && w.maxAttempts >= 1
    && w.rows == [] && w.submitters == map[] && w.enqueueCalls == [] && w.queue == map[] && w.workers == map[]
  }

  // ---- Steps ----------------------------------------------------------------------------------

  datatype Step =
    | StartSubmit(s: nat, task: Task, backfill: Option<string>)
    | CheckKey(s: nat)
    | ReadLatest(s: nat)
    | RecheckRefusal(s: nat)
    | Insert(s: nat, runId: nat, now: int)
    | RecheckLoss(s: nat)
    | Enqueue(s: nat, accepted: bool)
    | MarkRejected(s: nat, now: int)
    | AbandonSubmit(s: nat)
    | Deliver(d: nat, runId: nat, task: Task)
    | Begin(d: nat)
    | Mark(d: nat, now: int)
    | Record(d: nat, result: ExecResult, now: int)
    | Respond(d: nat)
    | Crash(d: nat)

  predicate Enabled(w: World, step: Step) {
    match step
    case StartSubmit(s, task, _) => s !in w.submitters && Submittable(task)
    case CheckKey(s) => s in w.submitters && w.submitters[s].phase.Checking?
    case ReadLatest(s) => s in w.submitters && w.submitters[s].phase.Reading?
    case RecheckRefusal(s) => s in w.submitters && w.submitters[s].phase.RecheckingRefusal?
    case Insert(s, _, _) => s in w.submitters && w.submitters[s].phase.Inserting?
    case RecheckLoss(s) => s in w.submitters && w.submitters[s].phase.RecheckingLoss?
    case Enqueue(s, _) => s in w.submitters && w.submitters[s].phase.Enqueueing?
    case MarkRejected(s, _) => s in w.submitters && w.submitters[s].phase.Rejecting?
    case AbandonSubmit(s) => s in w.submitters && !w.submitters[s].phase.Answered?
    case Deliver(d, _, _) => d !in w.workers
    case Begin(d) => d in w.workers && w.workers[d].phase.Received?
    case Mark(d, _) => d in w.workers && w.workers[d].phase.Marking?
    case Record(d, _, _) => d in w.workers && w.workers[d].phase.Executing?
    case Respond(d) => d in w.workers && w.workers[d].phase.Responding?
    case Crash(d) => d in w.workers && Active(w.workers[d])
  }

  /** `already_submitted`: the answer for a tagged key, if some run carries it. */
  function KeyAnswer(rows: seq<Row>, sub: Submitter, otherwise: SubmitPhase): SubmitPhase {
    match FindKey(rows, sub.backfill, sub.logicalId)
    case Some(row) => Answered(AlreadySubmitted(row.run.runId, row.run.runNumber))
    case None => otherwise
  }

  function AfterCheck(rows: seq<Row>, sub: Submitter): Submitter {
    sub.(phase := KeyAnswer(rows, sub, Reading), checkLen := |rows|)
  }

  function AfterRead(rows: seq<Row>, sub: Submitter): Submitter {
    var latest := LatestRun(rows, sub.logicalId);
    sub.(readLen := |rows|, observed := latest,
         phase := match DecideNextRun(latest) case Some(next) => Inserting(next) case None => RecheckingRefusal)
  }

  function AfterRecheck(rows: seq<Row>, sub: Submitter): Submitter {
    sub.(phase := KeyAnswer(rows, sub, Answered(RefusedInFlight)))
  }

  function RunOf(sub: Submitter, runId: nat, next: int): TaskRun {
    TaskRun(sub.logicalId, runId, next, sub.backfill, sub.task)
  }

  function AfterInsert(rows: seq<Row>, sub: Submitter, runId: nat): Submitter
    requires sub.phase.Inserting?
  {
    var next := sub.phase.next;
    sub.(phase := match InsertVerdict(rows, RunOf(sub, runId, next))
                  case Inserted => Enqueueing(runId, next)
                  case Conflict => RecheckingLoss(next)
                  case IdCollision => Answered(Errored))
  }

  function AfterEnqueue(sub: Submitter, accepted: bool): Submitter
    requires sub.phase.Enqueueing?
  {
    var id, next := sub.phase.runId, sub.phase.next;
    sub.(phase := if accepted then Answered(Enqueued(id, next)) else Rejecting(id, next))
  }

  function AfterBegin(rows: seq<Row>, worker: Worker): Worker {
    worker.(phase :=
      if worker.task.Spark? && worker.task.captureIds == [] then Responding(400)
      else match DecideNextAttempt(FindRun(rows, worker.runId))
           case None => Responding(204)
           case Some(attempt) => Marking(attempt))
  }

  datatype Note = Delivered(d: nat) | Begun | Responded(d: nat, code: int) | Lost(d: nat)

  function Noting(m: Message, note: Note): Message {
    match note
    case Delivered(d) => m.(deliveries := m.deliveries + 1, open := m.open + {d})
    case Begun => m.(begun := m.begun + 1)
    case Responded(d, code) =>
      if IsSuccessCode(code) then m.(acked := m.acked + 1, open := m.open - {d})
      else m.(retried := m.retried + 1, open := m.open - {d})
    case Lost(d) => m.(crashed := m.crashed + 1, open := m.open - {d})
  }

  /** Bookkeeping on the message of a run, if the queue ever saw one. */
  function Noted(queue: map<nat, Message>, runId: nat, note: Note): map<nat, Message> {
    if runId in queue then queue[runId := Noting(queue[runId], note)] else queue
  }

  function WithSubmitter(w: World, s: nat, sub: Submitter): World {
    w.(submitters := w.submitters[s := sub])
  }

  function WithWorker(w: World, d: nat, worker: Worker): World {
    w.(workers := w.workers[d := worker])
  }

  function Next(w: World, step: Step): World
    requires Enabled(w, step)
  {
    match step
    case StartSubmit(s, task, backfill) =>
      WithSubmitter(w, s, Submitter(task, backfill, LogicalIdOf(task), Checking, 0, 0, None))
    case CheckKey(s) => WithSubmitter(w, s, AfterCheck(w.rows, w.submitters[s]))
    case ReadLatest(s) => WithSubmitter(w, s, AfterRead(w.rows, w.submitters[s]))
    case RecheckRefusal(s) => WithSubmitter(w, s, AfterRecheck(w.rows, w.submitters[s]))
    case RecheckLoss(s) => WithSubmitter(w, s, AfterRecheck(w.rows, w.submitters[s]))
    case Insert(s, runId, now) =>
      var sub := w.submitters[s];
      WithSubmitter(w, s, AfterInsert(w.rows, sub, runId))
        .(rows := InsertRow(w.rows, RunOf(sub, runId, sub.phase.next), now))
    case Enqueue(s, accepted) =>
      var sub := w.submitters[s];
      var id := sub.phase.runId;
      WithSubmitter(w, s, AfterEnqueue(sub, accepted))
        .(enqueueCalls := w.enqueueCalls + [id],
          queue := w.queue[id := Message(sub.task, accepted, {}, 0, 0, 0, 0, 0)])
    case MarkRejected(s, now) =>
      var sub := w.submitters[s];
      WithSubmitter(w, s, sub.(phase := Answered(Errored)))
        .(rows := WriteStatus(w.rows, sub.phase.runId, Reject(500), now))
    case AbandonSubmit(s) => WithSubmitter(w, s, w.submitters[s].(phase := Answered(Errored)))
    case Deliver(d, runId, task) =>
      WithWorker(w, d, Worker(runId, task, Received)).(queue := Noted(w.queue, runId, Delivered(d)))
    case Begin(d) => WithWorker(w, d, AfterBegin(w.rows, w.workers[d]))
    case Mark(d, now) =>
      var worker := w.workers[d];
      var attempt := worker.phase.attempt;
      WithWorker(w, d, worker.(phase := Executing(attempt)))
        .(rows := WriteStatus(w.rows, worker.runId, Start(attempt), now),
          queue := Noted(w.queue, worker.runId, Begun))
    case Record(d, result, now) =>
      var worker := w.workers[d];
      var write := FinishWrite(result, worker.phase.attempt, w.maxAttempts);
      WithWorker(w, d, worker.(phase := Responding(HttpStatusFor(WrittenStatus(write)))))
        .(rows := WriteStatus(w.rows, worker.runId, write, now))
    case Respond(d) =>
      var worker := w.workers[d];
      WithWorker(w, d, worker.(phase := Closed))
        .(queue := Noted(w.queue, worker.runId, Responded(d, worker.phase.code)))
    case Crash(d) =>
      var worker := w.workers[d];
      WithWorker(w, d, worker.(phase := Crashed)).(queue := Noted(w.queue, worker.runId, Lost(d)))
  }

  predicate StepAt(ws: seq<World>, steps: seq<Step>, i: nat)
    requires |ws| == |steps| + 1 && i < |steps|
  {
    Enabled(ws[i], steps[i]) && ws[i + 1] == Next(ws[i], steps[i])
  }

  /** A run of the protocol: any interleaving of enabled steps from an empty service. */
  predicate IsRun(ws: seq<World>, steps: seq<Step>) {
    && |ws| == |steps| + 1
    && Init(ws[0])
    && forall i | 0 <= i < |steps| :: StepAt(ws, steps, i)
  }

  function Last(ws: seq<World>): World
    requires |ws| > 0
  {
    ws[|ws| - 1]
  }

  // ---- What holds with no assumption on deliveries --------------------------------------------

  /** No row among the first `n` carries the submitter's key. */
  predicate Unclaimed(rows: seq<Row>, n: nat, sub: Submitter)
    requires n <= |rows|
  {
    forall k | 0 <= k < n :: !HasKey(rows[k].run, sub.backfill, sub.logicalId)
  }

  /** The table holds the submitter's own run: same task, same tag, this id and ordinal. */
  predicate Holds(rows: seq<Row>, sub: Submitter, runId: nat, runNumber: int) {
    exists k | 0 <= k < |rows| ::
      && rows[k].run.runId == runId && rows[k].run.runNumber == runNumber
      && rows[k].run.backfillId == sub.backfill && rows[k].run.logicalId == sub.logicalId
  }

  predicate ReadsInOrder(rows: seq<Row>, sub: Submitter) {
    sub.checkLen <= sub.readLen <= |rows|
  }

  /** The saved read was the latest run of the task among the first `readLen` rows. */
  predicate ObservedLatest(rows: seq<Row>, sub: Submitter)
    requires ReadsInOrder(rows, sub)
  {
    match sub.observed
    case None => RunCount(rows, sub.readLen, sub.logicalId) == 0
    case Some(row) =>
      && row.run.logicalId == sub.logicalId
      && row.run.runNumber == RunCount(rows, sub.readLen, sub.logicalId)
  }

  /** A competing run committed after the submitter's own reads: either it took the ordinal after the
      latest-run read, or it took the tagged key after the key check. */
  predicate LostRace(rows: seq<Row>, sub: Submitter)
    requires ReadsInOrder(rows, sub)
  {
    exists k | sub.checkLen <= k < |rows| ::
      TookOrdinal(rows, sub, k) || HasKey(rows[k].run, sub.backfill, sub.logicalId)
  }

  predicate TookOrdinal(rows: seq<Row>, sub: Submitter, k: nat)
    requires ReadsInOrder(rows, sub) && k < |rows|
  {
    && sub.readLen <= k
    && rows[k].run.logicalId == sub.logicalId
    && rows[k].run.runNumber == RunCount(rows, sub.readLen, sub.logicalId) + 1
  }

  /** Why a refusal was given: the observed latest run was in flight, or a run of another tag took the
      ordinal after the read. */
  predicate RefusalJustified(rows: seq<Row>, sub: Submitter)
    requires ReadsInOrder(rows, sub)
  {
    || (sub.observed.Some? && InFlight(sub.observed.value))
    || exists k | 0 <= k < |rows| :: TookOrdinal(rows, sub, k) && !HasKey(rows[k].run, sub.backfill, sub.logicalId)
  }

  predicate SubmitterOk(rows: seq<Row>, sub: Submitter) {
    match sub.phase
    case Checking => true
    case Reading => sub.checkLen <= |rows| && Unclaimed(rows, sub.checkLen, sub)
    case RecheckingRefusal =>
      && ReadsInOrder(rows, sub) && ObservedLatest(rows, sub)
      && sub.observed.Some? && InFlight(sub.observed.value)
    case Inserting(next) =>
      && ReadsInOrder(rows, sub) && ObservedLatest(rows, sub)
      && Unclaimed(rows, sub.checkLen, sub)
      && next == RunCount(rows, sub.readLen, sub.logicalId) + 1
      && (sub.observed.Some? ==> !InFlight(sub.observed.value))
    case RecheckingLoss(next) =>
      && ReadsInOrder(rows, sub) && ObservedLatest(rows, sub)
      && next == RunCount(rows, sub.readLen, sub.logicalId) + 1
      && LostRace(rows, sub)
    case Enqueueing(id, next) => Holds(rows, sub, id, next)
    case Rejecting(id, next) => Holds(rows, sub, id, next)
    case Answered(Enqueued(id, next)) => Holds(rows, sub, id, next)
    case Answered(AlreadySubmitted(id, next)) => sub.backfill.Some? && Holds(rows, sub, id, next)
    case Answered(RefusedInFlight) =>
      ReadsInOrder(rows, sub) && ObservedLatest(rows, sub) && RefusalJustified(rows, sub)
    case Answered(Errored) => true
  }

  predicate SubmittersOk(w: World) {
    forall s | s in w.submitters :: SubmitterOk(w.rows, w.submitters[s])
  }

  /** Each inserted run is handed to the queue at most once, by the submitter that inserted it. */
  ghost predicate CallsOk(w: World) {
    && (forall i, j | 0 <= i < j < |w.enqueueCalls| :: w.enqueueCalls[i] != w.enqueueCalls[j])
    && (forall i | 0 <= i < |w.enqueueCalls| :: IdTaken(w.rows, w.enqueueCalls[i]))
    && (forall id :: id in w.queue <==> id in w.enqueueCalls)
    && (forall s | s in w.submitters && w.submitters[s].phase.Enqueueing? ::
          w.submitters[s].phase.runId !in w.enqueueCalls)
    && (forall s, t | s in w.submitters && t in w.submitters && s != t
          && w.submitters[s].phase.Enqueueing? && w.submitters[t].phase.Enqueueing? ::
          w.submitters[s].phase.runId != w.submitters[t].phase.runId)
  }

  ghost predicate Invariant(w: World) {
    w.maxAttempts >= 1 && TableOk(w.rows) && SubmittersOk(w) && CallsOk(w)
  }

  // ---- Preservation ---------------------------------------------------------------------------

  lemma SubmitterSurvives(rows: seq<Row>, later: seq<Row>, sub: Submitter)
    requires Extends(rows, later) && SubmitterOk(rows, sub)
    ensures SubmitterOk(later, sub)
  {
    if sub.readLen <= |rows| {
      CountExtends(rows, later, sub.readLen, sub.logicalId);
    }
    match sub.phase
    case RecheckingLoss(_) =>
      var k :| sub.checkLen <= k < |rows|
        && (TookOrdinal(rows, sub, k) || HasKey(rows[k].run, sub.backfill, sub.logicalId));
      assert TookOrdinal(later, sub, k) || HasKey(later[k].run, sub.backfill, sub.logicalId);
    case Answered(RefusedInFlight) =>
      if k :| 0 <= k < |rows| && TookOrdinal(rows, sub, k) && !HasKey(rows[k].run, sub.backfill, sub.logicalId) {
        assert TookOrdinal(later, sub, k) && !HasKey(later[k].run, sub.backfill, sub.logicalId);
      }
    case _ =>
  }
}
