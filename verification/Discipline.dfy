/** What the protocol guarantees when the queue behaves: deliveries of one run do not overlap, only
    accepted runs are delivered, and an exhausted run is not delivered again. Workers may still crash
    anywhere and successful runs may be delivered again after a lost acknowledgement. */
module Discipline {
  import opened Options
  import opened Statuses
  import opened Tasks
  import opened RunTable
  import opened Protocol
  import opened ProtocolSafety

  // ---- The environment assumptions ------------------------------------------------------------

  /** E1: no other delivery of this run is being worked on. */
  predicate NoOverlap(w: World, runId: nat) {
    forall d | d in w.workers && Active(w.workers[d]) :: w.workers[d].runId != runId
  }

  /** The queue accepted the hand-over of this run. */
  predicate HandedOver(queue: map<nat, Message>, runId: nat) {
    runId in queue && queue[runId].accepted
  }

  /** E2: only accepted messages are delivered, with the body that was handed over. */
  predicate OnlyAccepted(w: World, runId: nat, task: Task) {
    HandedOver(w.queue, runId) && task == w.queue[runId].task
  }

  /** E3: a recorded `CompleteFailure` was acknowledged and is not delivered again. */
  predicate NotExhausted(w: World, runId: nat) {
    forall k | 0 <= k < |w.rows| && w.rows[k].run.runId == runId :: !HasStatus(w.rows[k], CompleteFailure)
  }

  predicate Permitted(w: World, step: Step) {
    step.Deliver? ==>
      NoOverlap(w, step.runId) && OnlyAccepted(w, step.runId, step.task) && NotExhausted(w, step.runId)
  }

  predicate PermittedAt(ws: seq<World>, steps: seq<Step>, i: nat)
    requires |ws| == |steps| + 1 && i < |steps|
  {
    Permitted(ws[i], steps[i])
  }

  predicate IsPermittedRun(ws: seq<World>, steps: seq<Step>) {
    IsRun(ws, steps) && forall i | 0 <= i < |steps| :: PermittedAt(ws, steps, i)
  }

  // ---- The invariant --------------------------------------------------------------------------

  /** Status and columns agree. */
  predicate Consistent(row: Row, maxAttempts: int) {
    && 0 <= row.statusCode <= 5
    && (HasStatus(row, Queued) || HasStatus(row, SubmissionFailed) ==> row.attempts == 0)
    && (HasStatus(row, InProgress) ==> row.attempts >= 1 && row.startedAt.Some?)
    && (HasStatus(row, ErrorWillRetry) ==> 1 <= row.attempts < maxAttempts)
    && (HasStatus(row, CompleteSuccess) || HasStatus(row, CompleteFailure) ==> row.attempts >= 1)
    && (row.successMs.Some? <==> HasStatus(row, CompleteSuccess))
  }

  /** Attempts begun on a run, as counted by the queue's bookkeeping. */
  function BegunOf(queue: map<nat, Message>, runId: nat): nat {
    if runId in queue then queue[runId].begun else 0
  }

  predicate RowOk(w: World, row: Row) {
    && Consistent(row, w.maxAttempts)
    && row.attempts == BegunOf(w.queue, row.run.runId)
    && (HandedOver(w.queue, row.run.runId) ==> !HasStatus(row, SubmissionFailed))
    && (!HandedOver(w.queue, row.run.runId) ==> HasStatus(row, Queued) || HasStatus(row, SubmissionFailed))
  }

  predicate RowsOk(w: World) {
    forall k | 0 <= k < |w.rows| :: RowOk(w, w.rows[k])
  }

  predicate WorkerMeets(phase: WorkPhase, row: Row) {
    match phase
    case Received => !HasStatus(row, CompleteFailure)
    case Marking(attempt) => InFlight(row) && attempt == row.attempts + 1
    case Executing(attempt) => HasStatus(row, InProgress) && attempt == row.attempts
    case _ => true
  }

  predicate WorkerOk(w: World, worker: Worker) {
    Active(worker) ==>
      && HandedOver(w.queue, worker.runId) && Submittable(worker.task)
      && forall k | 0 <= k < |w.rows| && w.rows[k].run.runId == worker.runId :: WorkerMeets(worker.phase, w.rows[k])
  }

  predicate WorkersOk(w: World) {
    && (forall d | d in w.workers :: WorkerOk(w, w.workers[d]))
    && (forall d, e | d in w.workers && e in w.workers && d != e && Active(w.workers[d]) && Active(w.workers[e]) ::
          w.workers[d].runId != w.workers[e].runId)
  }

  /** The rows a submitter is responsible for are still as it left them. */
  predicate HolderOk(w: World, sub: Submitter) {
    match sub.phase
    case Inserting(_) =>
      sub.readLen <= |w.rows| &&
      forall k | 0 <= k < sub.readLen && w.rows[k].run.logicalId == sub.logicalId :: !InFlight(w.rows[k])
    case Enqueueing(id, _) =>
      forall k | 0 <= k < |w.rows| && w.rows[k].run.runId == id :: HasStatus(w.rows[k], Queued)
    case Rejecting(id, _) =>
      && id in w.queue && !w.queue[id].accepted
      && forall k | 0 <= k < |w.rows| && w.rows[k].run.runId == id :: HasStatus(w.rows[k], Queued)
    case _ => true
  }

  predicate HoldsRun(sub: Submitter) {
    sub.phase.Enqueueing? || sub.phase.Rejecting?
  }

  predicate HoldersOk(w: World) {
    && (forall s | s in w.submitters :: HolderOk(w, w.submitters[s]))
    && (forall s, t | s in w.submitters && t in w.submitters && s != t
          && HoldsRun(w.submitters[s]) && HoldsRun(w.submitters[t]) ::
          w.submitters[s].phase.runId != w.submitters[t].phase.runId)
  }

  /** Only the last run of a logical task can be in flight. */
  predicate OlderSettled(rows: seq<Row>) {
    forall j, k | 0 <= j < k < |rows| && rows[j].run.logicalId == rows[k].run.logicalId :: !InFlight(rows[j])
  }

  predicate MessagesOk(w: World) {
    forall id | id in w.queue :: Submittable(w.queue[id].task)
  }

  ghost predicate Governed(w: World) {
    Invariant(w) && RowsOk(w) && WorkersOk(w) && HoldersOk(w) && OlderSettled(w.rows) && MessagesOk(w)
  }

  // ---- Effects of the writes ------------------------------------------------------------------

  /** A status write in this state: the run it names, what it writes, and the row it lands on. */
  predicate LawfulWrite(w: World, runId: nat, write: StatusWrite) {
    forall k | 0 <= k < |w.rows| && w.rows[k].run.runId == runId ::
      match write
      case Reject(_) => !HandedOver(w.queue, runId) && HasStatus(w.rows[k], Queued)
      case Start(attempt) =>
        HandedOver(w.queue, runId) && InFlight(w.rows[k]) && attempt == w.rows[k].attempts + 1
      case Succeed(attempt) =>
        HandedOver(w.queue, runId) && HasStatus(w.rows[k], InProgress) && attempt == w.rows[k].attempts
      case Fail(status, attempt, _) =>
        && HandedOver(w.queue, runId) && HasStatus(w.rows[k], InProgress) && attempt == w.rows[k].attempts
        && (status.CompleteFailure? || (status.ErrorWillRetry? && attempt < w.maxAttempts))
  }

  /** Every status write of a permitted step lands on an in-flight row. */
  lemma WritesLandInFlight(w: World, runId: nat, write: StatusWrite, k: nat)
    requires LawfulWrite(w, runId, write) && k < |w.rows| && w.rows[k].run.runId == runId
    ensures InFlight(w.rows[k])
  {
  }

  /** The run and write of a writing step. */
  function WriteOf(w: World, step: Step): Option<(nat, StatusWrite)>
    requires Enabled(w, step)
  {
    match step
    case MarkRejected(s, _) => Some((w.submitters[s].phase.runId, Reject(500)))
    case Mark(d, _) => Some((w.workers[d].runId, Start(w.workers[d].phase.attempt)))
    case Record(d, result, _) =>
      Some((w.workers[d].runId, FinishWrite(result, w.workers[d].phase.attempt, w.maxAttempts)))
    case _ => None
  }

  lemma StepWritesLawfully(w: World, step: Step)
    requires WorkersOk(w) && HoldersOk(w) && Enabled(w, step)
    ensures WriteOf(w, step).Some? ==> LawfulWrite(w, WriteOf(w, step).value.0, WriteOf(w, step).value.1)
  {
    match step
    case MarkRejected(s, _) => assert HolderOk(w, w.submitters[s]);
    case Mark(d, _) => assert WorkerOk(w, w.workers[d]);
    case Record(d, _, _) => assert WorkerOk(w, w.workers[d]);
    case _ =>
  }

  /** The run an insert step submits. */
  function RunToInsert(w: World, step: Step): TaskRun
    requires Enabled(w, step) && step.Insert?
  {
    RunOf(w.submitters[step.s], step.runId, w.submitters[step.s].phase.next)
  }

  /** What a step does to the table: nothing, one append, or one status write. */
  lemma TableEffect(w: World, step: Step)
    requires Enabled(w, step)
    ensures var rows' := Next(w, step).rows;
      && (WriteOf(w, step).Some? ==>
            rows' == WriteStatus(w.rows, WriteOf(w, step).value.0, WriteOf(w, step).value.1, step.now))
      && (WriteOf(w, step).None? && !step.Insert? ==> rows' == w.rows)
      && (step.Insert? ==> rows' == InsertRow(w.rows, RunToInsert(w, step), step.now))
  {
  }

  /** A permitted step never touches a settled row: settled runs stay settled, unchanged. */
  lemma SettledStays(w: World, step: Step, k: nat)
    requires WorkersOk(w) && HoldersOk(w) && Enabled(w, step)
    requires k < |w.rows| && !InFlight(w.rows[k])
    ensures k < |Next(w, step).rows| && Next(w, step).rows[k] == w.rows[k]
  {
    TableEffect(w, step);
    StepWritesLawfully(w, step);
    if WriteOf(w, step).Some? && w.rows[k].run.runId == WriteOf(w, step).value.0 {
      WritesLandInFlight(w, WriteOf(w, step).value.0, WriteOf(w, step).value.1, k);
    }
  }

  // ---- Preservation: rows ---------------------------------------------------------------------

  /** Bookkeeping as seen by the rows: who was handed over, and how many attempts were begun. */
  ghost predicate QueueMoves(queue: map<nat, Message>, queue': map<nat, Message>, begun: Option<nat>) {
    forall id: nat ::
      && (id in queue' <==> id in queue)
      && (id in queue ==> queue'[id].task == queue[id].task && queue'[id].accepted == queue[id].accepted)
      && BegunOf(queue', id) == BegunOf(queue, id) + if begun == Some(id) && id in queue then 1 else 0
  }

  function BegunBy(w: World, step: Step): Option<nat>
    requires Enabled(w, step)
  {
    if step.Mark? then Some(w.workers[step.d].runId) else None
  }

  lemma QueueEffect(w: World, step: Step)
    requires Enabled(w, step) && !step.Enqueue?
    ensures QueueMoves(w.queue, Next(w, step).queue, BegunBy(w, step))
    ensures Next(w, step).maxAttempts == w.maxAttempts
  {
  }

  lemma RowsAfterWrite(w: World, w': World, runId: nat, write: StatusWrite, now: int)
    requires RowsOk(w) && LawfulWrite(w, runId, write)
    requires w'.rows == WriteStatus(w.rows, runId, write, now) && w'.maxAttempts == w.maxAttempts
    requires QueueMoves(w.queue, w'.queue, if write.Start? then Some(runId) else None)
    ensures RowsOk(w')
  {
    forall k | 0 <= k < |w'.rows| ensures RowOk(w', w'.rows[k]) {
      assert RowOk(w, w.rows[k]);
      assert BegunOf(w'.queue, w.rows[k].run.runId) == BegunOf(w.queue, w.rows[k].run.runId)
        + if write.Start? && w.rows[k].run.runId == runId && runId in w.queue then 1 else 0;
    }
  }

  lemma RowsAfterInsert(w: World, w': World, run: TaskRun, now: int)
    requires RowsOk(w) && w'.rows == InsertRow(w.rows, run, now) && w'.maxAttempts == w.maxAttempts
    requires QueueMoves(w.queue, w'.queue, None)
    requires InsertVerdict(w.rows, run).Inserted? ==> run.runId !in w.queue
    ensures RowsOk(w')
  {
    forall k | 0 <= k < |w'.rows| ensures RowOk(w', w'.rows[k]) {
      if k < |w.rows| {
        assert RowOk(w, w.rows[k]);
      }
      assert BegunOf(w'.queue, w'.rows[k].run.runId) == BegunOf(w.queue, w'.rows[k].run.runId);
    }
  }

  lemma RowsAfterEnqueue(w: World, w': World, id: nat, msg: Message)
    requires RowsOk(w) && w'.rows == w.rows && w'.maxAttempts == w.maxAttempts
    requires id !in w.queue && w'.queue == w.queue[id := msg] && msg.begun == 0
    requires forall k | 0 <= k < |w.rows| && w.rows[k].run.runId == id :: HasStatus(w.rows[k], Queued)
    ensures RowsOk(w')
  {
    forall k | 0 <= k < |w'.rows| ensures RowOk(w', w'.rows[k]) {
      assert RowOk(w, w.rows[k]);
    }
  }

  /** A run id that is free in the table is unknown to the queue. */
  lemma FreeIdsUnknown(w: World, runId: nat)
    requires Invariant(w) && !IdTaken(w.rows, runId)
    ensures runId !in w.queue
  {
    QueuedIdsTaken(w, runId);
  }

  lemma QueuedIdsTaken(w: World, runId: nat)
    requires Invariant(w)
    ensures runId in w.queue ==> IdTaken(w.rows, runId)
  {
    if runId in w.queue {
      assert runId in w.enqueueCalls;
      var i :| 0 <= i < |w.enqueueCalls| && w.enqueueCalls[i] == runId;
      assert IdTaken(w.rows, w.enqueueCalls[i]);
    }
  }

  lemma RowsStep(w: World, step: Step)
    requires Governed(w) && Enabled(w, step)
    ensures RowsOk(Next(w, step))
  {
    var w' := Next(w, step);
    if step.Enqueue? {
      var sub := w.submitters[step.s];
      assert HolderOk(w, sub);
      RowsAfterEnqueue(w, w', sub.phase.runId, w'.queue[sub.phase.runId]);
    } else {
      QueueEffect(w, step);
      TableEffect(w, step);
      StepWritesLawfully(w, step);
      match WriteOf(w, step)
      case Some(write) => RowsAfterWrite(w, w', write.0, write.1, step.now);
      case None => RowsAfterQuietStep(w, step, w');
    }
  }

  lemma RowsAfterQuietStep(w: World, step: Step, w': World)
    requires Invariant(w) && RowsOk(w) && Enabled(w, step) && WriteOf(w, step).None?
    requires w'.maxAttempts == w.maxAttempts && QueueMoves(w.queue, w'.queue, None)
    requires !step.Insert? ==> w'.rows == w.rows
    requires step.Insert? ==>
      w'.rows == InsertRow(w.rows, RunOf(w.submitters[step.s], step.runId, w.submitters[step.s].phase.next), step.now)
    ensures RowsOk(w')
  {
    if step.Insert? {
      var run := RunOf(w.submitters[step.s], step.runId, w.submitters[step.s].phase.next);
      if InsertVerdict(w.rows, run).Inserted? {
        FreeIdsUnknown(w, step.runId);
      }
      RowsAfterInsert(w, w', run, step.now);
    } else {
      forall k | 0 <= k < |w'.rows| ensures RowOk(w', w'.rows[k]) {
        assert RowOk(w, w.rows[k]);
        assert BegunOf(w'.queue, w.rows[k].run.runId) == BegunOf(w.queue, w.rows[k].run.runId);
      }
    }
  }

  // ---- Preservation: older runs stay settled --------------------------------------------------

  lemma OlderSettledAfterInsert(w: World, step: Step)
    requires Governed(w) && Enabled(w, step) && step.Insert?
    ensures OlderSettled(Next(w, step).rows)
  {
    var sub, run := w.submitters[step.s], RunToInsert(w, step);
    assert SubmitterOk(w.rows, sub) && HolderOk(w, sub);
    if InsertVerdict(w.rows, run).Inserted? {
      TableSurvivesInsert(w.rows, sub.readLen, run, step.now);
      CountMonotone(w.rows, sub.readLen, |w.rows|, sub.logicalId);
      SettledBeforeNew(w.rows, sub.readLen, run, step.now);
    }
  }

  lemma SettledBeforeNew(rows: seq<Row>, readLen: nat, run: TaskRun, now: int)
    requires OlderSettled(rows) && readLen <= |rows|
    requires forall k | 0 <= k < readLen && rows[k].run.logicalId == run.logicalId :: !InFlight(rows[k])
    requires forall k | readLen <= k < |rows| :: rows[k].run.logicalId != run.logicalId
    ensures OlderSettled(rows + [NewRow(run, now)])
  {
  }

  lemma OlderSettledStep(w: World, step: Step)
    requires Governed(w) && Enabled(w, step)
    ensures OlderSettled(Next(w, step).rows)
  {
    var rows' := Next(w, step).rows;
    if step.Insert? {
      OlderSettledAfterInsert(w, step);
    } else {
      TableEffect(w, step);
      forall j, k | 0 <= j < k < |rows'| && rows'[j].run.logicalId == rows'[k].run.logicalId
        ensures !InFlight(rows'[j])
      {
        assert w.rows[j].run == rows'[j].run && w.rows[k].run == rows'[k].run;
        SettledStays(w, step, j);
      }
    }
  }

  // ---- Preservation: the rows each participant relies on --------------------------------------

  /** The one run whose row a step may change or add. */
  function TouchedRun(w: World, step: Step): Option<nat>
    requires Enabled(w, step)
  {
    match WriteOf(w, step)
    case Some(write) => Some(write.0)
    case None =>
      if step.Insert? && !IdTaken(w.rows, step.runId) then Some(step.runId) else None
  }

  lemma OtherRowsKept(w: World, step: Step)
    requires Enabled(w, step)
    ensures var rows' := Next(w, step).rows;
      forall k | 0 <= k < |rows'| && Some(rows'[k].run.runId) != TouchedRun(w, step) ::
        k < |w.rows| && rows'[k] == w.rows[k]
  {
    TableEffect(w, step);
  }

  predicate WorkerStep(step: Step) {
    !SubmitterStep(step)
  }

  lemma OtherWorkersKept(w: World, step: Step)
    requires Enabled(w, step)
    ensures var w' := Next(w, step);
      forall d | d in w'.workers && !(WorkerStep(step) && d == step.d) ::
        d in w.workers && w'.workers[d] == w.workers[d]
  {
  }

  /** No step touches the run of another active worker. */
  lemma WorkersUndisturbed(w: World, step: Step, d: nat)
    requires Governed(w) && Enabled(w, step)
    requires d in w.workers && Active(w.workers[d]) && !(WorkerStep(step) && d == step.d)
    ensures TouchedRun(w, step) != Some(w.workers[d].runId)
  {
    assert WorkerOk(w, w.workers[d]);
    match step
    case MarkRejected(s, _) => assert HolderOk(w, w.submitters[s]);
    case Insert(_, runId, _) =>
      if !IdTaken(w.rows, runId) {
        FreeIdsUnknown(w, runId);
      }
    case _ =>
  }

  /** No step touches a run that another submitter is handing over. */
  lemma HoldersUndisturbed(w: World, step: Step, s: nat)
    requires SubmittersOk(w) && CallsOk(w) && WorkersOk(w) && HoldersOk(w) && Enabled(w, step)
    requires s in w.submitters && HoldsRun(w.submitters[s]) && !(SubmitterStep(step) && s == step.s)
    ensures TouchedRun(w, step) != Some(w.submitters[s].phase.runId)
  {
    var sub := w.submitters[s];
    assert HolderOk(w, sub) && SubmitterOk(w.rows, sub);
    match step
    case Mark(d, _) => assert WorkerOk(w, w.workers[d]);
    case Record(d, _, _) => assert WorkerOk(w, w.workers[d]);
    case _ =>
  }

  lemma WorkerSurvives(w: World, w': World, worker: Worker)
    requires WorkerOk(w, worker) && Active(worker)
    requires HandedOver(w'.queue, worker.runId)
    requires forall k | 0 <= k < |w'.rows| && w'.rows[k].run.runId == worker.runId ::
      k < |w.rows| && w'.rows[k] == w.rows[k]
    ensures WorkerOk(w', worker)
  {
  }

  lemma BeginMeetsRow(rows: seq<Row>, worker: Worker, k: nat)
    requires UniqueIds(rows) && KnownCodes(rows) && worker.phase.Received? && Submittable(worker.task)
    requires k < |rows| && rows[k].run.runId == worker.runId && WorkerMeets(Received, rows[k])
    ensures WorkerMeets(AfterBegin(rows, worker).phase, rows[k])
  {
    var found := FindRun(rows, worker.runId).value;
    var j :| 0 <= j < |rows| && rows[j] == found;
    assert j == k;
  }

  lemma ActingWorkerStep(w: World, step: Step)
    requires TableOk(w.rows) && WorkersOk(w) && MessagesOk(w)
    requires Enabled(w, step) && Permitted(w, step) && WorkerStep(step)
    ensures step.d in Next(w, step).workers && WorkerOk(Next(w, step), Next(w, step).workers[step.d])
  {
    var w' := Next(w, step);
    QueueEffect(w, step);
    TableEffect(w, step);
    match step
    case Deliver(d, runId, task) =>
      assert HandedOver(w'.queue, runId);
    case Begin(d) =>
      var worker := w.workers[d];
      assert WorkerOk(w, worker);
      forall k | 0 <= k < |w'.rows| && w'.rows[k].run.runId == worker.runId
        ensures WorkerMeets(w'.workers[d].phase, w'.rows[k])
      {
        BeginMeetsRow(w.rows, worker, k);
      }
    case Mark(d, now) => assert WorkerOk(w, w.workers[d]);
    case Record(d, result, now) => assert WorkerOk(w, w.workers[d]);
    case _ =>
  }

  lemma HandOversStay(w: World, step: Step, id: nat)
    requires Invariant(w) && Enabled(w, step) && HandedOver(w.queue, id)
    ensures HandedOver(Next(w, step).queue, id)
  {
    if step.Enqueue? {
      assert w.submitters[step.s].phase.runId !in w.enqueueCalls;
    } else {
      QueueEffect(w, step);
    }
  }

  /** In particular a new delivery starts on a run nobody else is working on. */
  lemma WorkersApart(w: World, step: Step, d: nat, e: nat)
    requires WorkersOk(w) && Enabled(w, step) && Permitted(w, step)
    requires var w' := Next(w, step);
      d in w'.workers && e in w'.workers && d != e && Active(w'.workers[d]) && Active(w'.workers[e])
    ensures Next(w, step).workers[d].runId != Next(w, step).workers[e].runId
  {
  }

  lemma WorkersStep(w: World, step: Step)
    requires Governed(w) && Enabled(w, step) && Permitted(w, step)
    ensures WorkersOk(Next(w, step))
  {
    var w' := Next(w, step);
    OtherWorkersKept(w, step);
    OtherRowsKept(w, step);
    forall d | d in w'.workers ensures WorkerOk(w', w'.workers[d]) {
      if WorkerStep(step) && d == step.d {
        ActingWorkerStep(w, step);
      } else if Active(w.workers[d]) {
        WorkersUndisturbed(w, step, d);
        HandOversStay(w, step, w.workers[d].runId);
        WorkerSurvives(w, w', w.workers[d]);
      }
    }
    forall d, e | d in w'.workers && e in w'.workers && d != e && Active(w'.workers[d]) && Active(w'.workers[e])
      ensures w'.workers[d].runId != w'.workers[e].runId
    {
      WorkersApart(w, step, d, e);
    }
  }

  lemma HolderSurvives(w: World, w': World, step: Step, s: nat)
    requires Governed(w) && Enabled(w, step) && w' == Next(w, step)
    requires s in w.submitters && !(SubmitterStep(step) && s == step.s)
    ensures HolderOk(w', w.submitters[s])
  {
    var sub := w.submitters[s];
    assert HolderOk(w, sub);
    match sub.phase
    case Inserting(_) =>
      InvariantStep(w, step);
      ReaderSurvives(w, w', step, sub);
    case Enqueueing(id, _) =>
      HoldersUndisturbed(w, step, s);
      QueuedRowSurvives(w, w', step, id);
    case Rejecting(id, _) =>
      HoldersUndisturbed(w, step, s);
      QueuedRowSurvives(w, w', step, id);
      RejectionStays(w, step, id);
    case _ =>
  }

  lemma ReaderSurvives(w: World, w': World, step: Step, sub: Submitter)
    requires WorkersOk(w) && HoldersOk(w) && Enabled(w, step) && w' == Next(w, step)
    requires HolderOk(w, sub) && sub.phase.Inserting? && Extends(w.rows, w'.rows)
    ensures HolderOk(w', sub)
  {
    forall k | 0 <= k < sub.readLen && w'.rows[k].run.logicalId == sub.logicalId ensures !InFlight(w'.rows[k]) {
      SettledStays(w, step, k);
    }
  }

  lemma QueuedRowSurvives(w: World, w': World, step: Step, id: nat)
    requires Enabled(w, step) && w' == Next(w, step) && TouchedRun(w, step) != Some(id)
    requires forall k | 0 <= k < |w.rows| && w.rows[k].run.runId == id :: HasStatus(w.rows[k], Queued)
    ensures forall k | 0 <= k < |w'.rows| && w'.rows[k].run.runId == id :: HasStatus(w'.rows[k], Queued)
  {
    OtherRowsKept(w, step);
  }

  lemma RejectionStays(w: World, step: Step, id: nat)
    requires Invariant(w) && Enabled(w, step) && id in w.queue && !w.queue[id].accepted
    ensures id in Next(w, step).queue && !Next(w, step).queue[id].accepted
  {
    if step.Enqueue? {
      assert w.submitters[step.s].phase.runId !in w.enqueueCalls;
    } else {
      QueueEffect(w, step);
    }
  }

  /** When the latest run is settled, all runs of the task are. */
  lemma LatestSettledMeansAll(rows: seq<Row>, logicalId: string, k: nat)
    requires TableOk(rows) && OlderSettled(rows)
    requires k < |rows| && rows[k].run.logicalId == logicalId
    requires DecideNextRun(LatestRun(rows, logicalId)).Some?
    ensures !InFlight(rows[k])
  {
    var latest := LatestRun(rows, logicalId).value;
    var j :| 0 <= j < |rows| && rows[j] == latest;
    if j < k {
      LaterRowsCountHigher(rows, j, k);
    }
  }

  lemma ReadingSettles(rows: seq<Row>, logicalId: string)
    requires TableOk(rows) && OlderSettled(rows)
    ensures DecideNextRun(LatestRun(rows, logicalId)).Some? ==>
      forall k | 0 <= k < |rows| && rows[k].run.logicalId == logicalId :: !InFlight(rows[k])
  {
    if DecideNextRun(LatestRun(rows, logicalId)).Some? {
      forall k | 0 <= k < |rows| && rows[k].run.logicalId == logicalId ensures !InFlight(rows[k]) {
        LatestSettledMeansAll(rows, logicalId, k);
      }
    }
  }

  lemma ActingHolderStep(w: World, step: Step)
    requires Governed(w) && Enabled(w, step) && SubmitterStep(step)
    ensures HolderOk(Next(w, step), Next(w, step).submitters[step.s])
  {
    if step.ReadLatest? {
      ReaderIsSettled(w, step);
    } else if step.Insert? {
      InsertedIsQueued(w, step);
    } else if step.Enqueue? {
      assert HolderOk(w, w.submitters[step.s]);
      EnqueuerHolds(w, step);
    } else {
      NothingHeld(w, step);
    }
  }

  lemma EnqueuerHolds(w: World, step: Step)
    requires Enabled(w, step) && step.Enqueue? && HolderOk(w, w.submitters[step.s])
    ensures HolderOk(Next(w, step), Next(w, step).submitters[step.s])
  {
  }

  lemma NothingHeld(w: World, step: Step)
    requires Enabled(w, step) && SubmitterStep(step) && !step.ReadLatest? && !step.Insert? && !step.Enqueue?
    ensures HolderOk(Next(w, step), Next(w, step).submitters[step.s])
  {
  }

  lemma ReaderIsSettled(w: World, step: Step)
    requires TableOk(w.rows) && OlderSettled(w.rows) && Enabled(w, step) && step.ReadLatest?
    ensures HolderOk(Next(w, step), Next(w, step).submitters[step.s])
  {
    ReadingSettles(w.rows, w.submitters[step.s].logicalId);
  }

  lemma InsertedIsQueued(w: World, step: Step)
    requires Enabled(w, step) && step.Insert?
    ensures HolderOk(Next(w, step), Next(w, step).submitters[step.s])
  {
    TableEffect(w, step);
  }

  /** An inserted run has a fresh id, which no other submitter can hold. */
  lemma NewRunUnheld(w: World, step: Step, s: nat)
    requires SubmittersOk(w) && Enabled(w, step) && step.Insert?
    requires s in w.submitters && s != step.s && HoldsRun(w.submitters[s])
    requires HoldsRun(Next(w, step).submitters[step.s])
    ensures Next(w, step).submitters[step.s].phase.runId != w.submitters[s].phase.runId
  {
    assert SubmitterOk(w.rows, w.submitters[s]);
  }

  lemma HoldersApart(w: World, step: Step, s: nat, t: nat)
    requires SubmittersOk(w) && HoldersOk(w) && Enabled(w, step)
    requires var w' := Next(w, step);
      s in w'.submitters && t in w'.submitters && s != t && HoldsRun(w'.submitters[s]) && HoldsRun(w'.submitters[t])
    requires !(SubmitterStep(step) && s == step.s)
    ensures Next(w, step).submitters[s].phase.runId != Next(w, step).submitters[t].phase.runId
  {
    OtherSubmittersKept(w, step);
    if SubmitterStep(step) && t == step.s {
      if step.Insert? {
        NewRunUnheld(w, step, s);
      } else {
        HeldBefore(w, step);
      }
    }
  }

  lemma HeldBefore(w: World, step: Step)
    requires Enabled(w, step) && SubmitterStep(step) && !step.Insert? && HoldsRun(Next(w, step).submitters[step.s])
    ensures step.s in w.submitters && HoldsRun(w.submitters[step.s])
    ensures Next(w, step).submitters[step.s].phase.runId == w.submitters[step.s].phase.runId
  {
  }

  lemma HoldersStep(w: World, step: Step)
    requires Governed(w) && Enabled(w, step)
    ensures HoldersOk(Next(w, step))
  {
    var w' := Next(w, step);
    OtherSubmittersKept(w, step);
    forall s | s in w'.submitters ensures HolderOk(w', w'.submitters[s]) {
      if SubmitterStep(step) && s == step.s {
        ActingHolderStep(w, step);
      } else {
        HolderSurvives(w, w', step, s);
      }
    }
    forall s, t | s in w'.submitters && t in w'.submitters && s != t
      && HoldsRun(w'.submitters[s]) && HoldsRun(w'.submitters[t])
      ensures w'.submitters[s].phase.runId != w'.submitters[t].phase.runId
    {
      if SubmitterStep(step) && s == step.s {
        HoldersApart(w, step, t, s);
      } else {
        HoldersApart(w, step, s, t);
      }
    }
  }

  predicate TasksSubmittable(w: World) {
    forall s | s in w.submitters :: Submittable(w.submitters[s].task)
  }

  lemma TasksAreSubmittable(ws: seq<World>, steps: seq<Step>, n: nat)
    requires IsRun(ws, steps) && n < |ws|
    ensures TasksSubmittable(ws[n])
  {
    KeyedHolds(ws, steps, n);
    forall s | s in ws[n].submitters ensures Submittable(ws[n].submitters[s].task) {
      assert SubmitterKeyed(ws[n].submitters[s]);
    }
  }

  lemma MessagesStep(w: World, step: Step)
    requires MessagesOk(w) && TasksSubmittable(w) && Enabled(w, step)
    ensures MessagesOk(Next(w, step))
  {
    if !step.Enqueue? {
      QueueEffect(w, step);
    }
  }

  lemma GovernedStep(w: World, step: Step)
    requires Governed(w) && TasksSubmittable(w) && Enabled(w, step) && Permitted(w, step)
    ensures Governed(Next(w, step))
  {
    InvariantStep(w, step);
    RowsStep(w, step);
    WorkersStep(w, step);
    HoldersStep(w, step);
    OlderSettledStep(w, step);
    MessagesStep(w, step);
  }
}
