/** Concrete runs of the protocol that show what does not hold: each of the assumptions E1-E3 is needed, a
    follow-up may leave the index on older data, a submitter that stops strands its run, and a late announcement
    hides a newer run. */
module Counterexamples {
  import opened Options
  import opened Statuses
  import opened Tasks
  import opened RunTable
  import opened Protocol
  import opened Discipline
  import opened TaskMasters
  import opened FollowUps
  import opened Settlement
  import opened Catchup
  import opened LiveStatus
  import Stream = SseStream

  // ---- Building runs --------------------------------------------------------------------------

  /** Which of E1, E2 and E3 a run keeps. */
  datatype Assumed = Assumed(noOverlap: bool, onlyAccepted: bool, notExhausted: bool)

  const ALL := Assumed(true, true, true)

  predicate Meets(w: World, step: Step, a: Assumed) {
    step.Deliver? ==>
      && (a.noOverlap ==> NoOverlap(w, step.runId))
      && (a.onlyAccepted ==> OnlyAccepted(w, step.runId, step.task))
      && (a.notExhausted ==> NotExhausted(w, step.runId))
  }

  predicate MeetsAt(ws: seq<World>, steps: seq<Step>, i: nat, a: Assumed)
    requires |ws| == |steps| + 1 && i < |steps|
  {
    Meets(ws[i], steps[i], a)
  }

  predicate Scenario(ws: seq<World>, steps: seq<Step>, a: Assumed) {
    IsRun(ws, steps) && forall i | 0 <= i < |steps| :: MeetsAt(ws, steps, i, a)
  }

  lemma Go(ws: seq<World>, steps: seq<Step>, a: Assumed, step: Step) returns (ws': seq<World>, steps': seq<Step>)
    requires Scenario(ws, steps, a) && Enabled(Last(ws), step) && Meets(Last(ws), step, a)
    ensures Scenario(ws', steps', a) && steps' == steps + [step] && ws' == ws + [Next(Last(ws), step)]
    ensures Last(ws') == Next(Last(ws), step)
  {
    ws', steps' := ws + [Next(Last(ws), step)], steps + [step];
    forall i | 0 <= i < |steps'| ensures StepAt(ws', steps', i) && MeetsAt(ws', steps', i, a) {
      if i < |steps| {
        EarlierStep(ws, steps, a, Next(Last(ws), step), step, i);
      }
    }
  }

  lemma EarlierStep(ws: seq<World>, steps: seq<Step>, a: Assumed, w: World, step: Step, i: nat)
    requires Scenario(ws, steps, a) && i < |steps|
    ensures StepAt(ws + [w], steps + [step], i) && MeetsAt(ws + [w], steps + [step], i, a)
  {
    assert StepAt(ws, steps, i) && MeetsAt(ws, steps, i, a);
  }

  lemma AllIsPermitted(ws: seq<World>, steps: seq<Step>)
    requires Scenario(ws, steps, ALL)
    ensures IsPermittedRun(ws, steps)
  {
    forall i | 0 <= i < |steps| ensures PermittedAt(ws, steps, i) {
      assert MeetsAt(ws, steps, i, ALL);
    }
  }

  const EMPTY := World(3, [], map[], [], map[], map[])

  function RunNo(task: Task, tag: Option<string>, runId: nat, number: int): TaskRun {
    TaskRun(LogicalIdOf(task), runId, number, tag, task)
  }

  function Requester(w: World, task: Task, tag: Option<string>): Submitter {
    Submitter(task, tag, LogicalIdOf(task), Reading, |w.rows|, 0, None)
  }

  /** A submission up to its latest-run read. */
  lemma Read(ws: seq<World>, steps: seq<Step>, a: Assumed, s: nat, task: Task, tag: Option<string>)
    returns (ws': seq<World>, steps': seq<Step>)
    requires Scenario(ws, steps, a) && s !in Last(ws).submitters && Submittable(task)
    requires FindKey(Last(ws).rows, tag, LogicalIdOf(task)).None?
    ensures Scenario(ws', steps', a) && ws <= ws'
    ensures steps' == steps + [StartSubmit(s, task, tag), CheckKey(s), ReadLatest(s)]
    ensures var w := Last(ws);
      Last(ws') == w.(submitters := w.submitters[s := AfterRead(w.rows, Requester(w, task, tag))])
  {
    ws', steps' := Go(ws, steps, a, StartSubmit(s, task, tag));
    ws', steps' := Go(ws', steps', a, CheckKey(s));
    assert Last(ws').submitters[s] == Requester(Last(ws), task, tag);
    ws', steps' := Go(ws', steps', a, ReadLatest(s));
    assert Last(ws').submitters == Last(ws).submitters[s := Last(ws').submitters[s]];
  }

  /** What handing a run over leaves: one more row, one more message, the submitter that did it. */
  predicate Handed(w: World, w': World, s: nat, run: TaskRun, now: int, accepted: bool) {
    && w'.maxAttempts == w.maxAttempts && w'.workers == w.workers && w'.rows == w.rows + [NewRow(run, now)]
    && w'.queue == w.queue[run.runId := Message(run.task, accepted, {}, 0, 0, 0, 0, 0)]
    && s in w'.submitters && w'.submitters == w.submitters[s := w'.submitters[s]]
    && w'.submitters[s].phase
       == (if accepted then Answered(Enqueued(run.runId, run.runNumber)) else Rejecting(run.runId, run.runNumber))
  }

  /** A submitter that has read hands its run over. */
  lemma Hand(ws: seq<World>, steps: seq<Step>, a: Assumed, s: nat, run: TaskRun, now: int, accepted: bool)
    returns (ws': seq<World>, steps': seq<Step>)
    requires Scenario(ws, steps, a) && s in Last(ws).submitters
    requires Last(ws).submitters[s].phase == Inserting(run.runNumber)
    requires RunOf(Last(ws).submitters[s], run.runId, run.runNumber) == run
    requires InsertVerdict(Last(ws).rows, run).Inserted?
    ensures Scenario(ws', steps', a) && steps' == steps + [Insert(s, run.runId, now), Enqueue(s, accepted)]
    ensures Handed(Last(ws), Last(ws'), s, run, now, accepted)
  {
    ws', steps' := Go(ws, steps, a, Insert(s, run.runId, now));
    assert Last(ws').submitters[s].phase == Enqueueing(run.runId, run.runNumber);
    ws', steps' := Go(ws', steps', a, Enqueue(s, accepted));
    assert Last(ws').submitters == Last(ws).submitters[s := Last(ws').submitters[s]];
  }

  /** The queue still holds the same messages, whatever was delivered. */
  predicate SameMessages(queue: map<nat, Message>, queue': map<nat, Message>) {
    && (forall id | id in queue ::
          id in queue' && queue'[id].task == queue[id].task && queue'[id].accepted == queue[id].accepted)
    && (forall id | id in queue' :: id in queue)
  }

  /** What taking a delivery leaves: one more worker, about to mark the attempt. */
  predicate Took(w: World, w': World, d: nat, worker: Worker) {
    && w'.maxAttempts == w.maxAttempts && w'.submitters == w.submitters && SameMessages(w.queue, w'.queue)
    && w'.rows == w.rows && w'.workers == w.workers[d := worker]
  }

  /** A delivery of a run that can be attempted, and its attempt read. */
  lemma Take(ws: seq<World>, steps: seq<Step>, a: Assumed, d: nat, runId: nat, task: Task, row: Row)
    returns (ws': seq<World>, steps': seq<Step>)
    requires Scenario(ws, steps, a) && d !in Last(ws).workers && Meets(Last(ws), Deliver(d, runId, task), a)
    requires FindRun(Last(ws).rows, runId) == Some(row) && !task.Spark?
    requires !HasStatus(row, CompleteSuccess) && !HasStatus(row, SubmissionFailed)
    ensures Scenario(ws', steps', a) && steps' == steps + [Deliver(d, runId, task), Begin(d)]
    ensures Took(Last(ws), Last(ws'), d, Worker(runId, task, Marking(row.attempts + 1)))
  {
    ws', steps' := Go(ws, steps, a, Deliver(d, runId, task));
    ws', steps' := Go(ws', steps', a, Begin(d));
    assert Last(ws').workers == Last(ws).workers[d := Worker(runId, task, Marking(row.attempts + 1))];
  }

  // ---- Where the runs below start -------------------------------------------------------------

  const INDEX := SearchIndex(1, 1)
  const ILLUMINATE := Illuminate(1, 1, true)

  function FirstRow(task: Task, tag: Option<string>): Row {
    NewRow(RunNo(task, tag, 7, 1), 0)
  }

  /** Run 7 of the task has been handed over by submitter 0. */
  lemma First(task: Task, tag: Option<string>, accepted: bool, a: Assumed) returns (ws: seq<World>, steps: seq<Step>)
    requires Submittable(task)
    ensures Scenario(ws, steps, a) && |steps| == 5 && NoRecord(steps)
    ensures Handed(EMPTY, Last(ws), 0, RunNo(task, tag, 7, 1), 0, accepted)
  {
    ws, steps := [EMPTY], [];
    ws, steps := Read(ws, steps, a, 0, task, tag);
    assert Last(ws).submitters[0].phase == Inserting(1);
    ws, steps := Hand(ws, steps, a, 0, RunNo(task, tag, 7, 1), 0, accepted);
  }

  function StartedRow(task: Task, tag: Option<string>): Row {
    Apply(FirstRow(task, tag), Start(1), 1)
  }

  /** Run 7 is being executed by worker 0. */
  predicate IsStarted(w: World, task: Task, tag: Option<string>) {
    && w.maxAttempts == 3 && w.rows == [StartedRow(task, tag)] && w.workers == map[0 := Worker(7, task, Executing(1))]
    && (forall s | s in w.submitters :: s == 0)
    && (forall id | id in w.queue :: id == 7) && OnlyAccepted(w, 7, task)
  }

  lemma Started(task: Task, tag: Option<string>, a: Assumed) returns (ws: seq<World>, steps: seq<Step>)
    requires !task.Spark?
    ensures Scenario(ws, steps, a) && |steps| == 8 && NoRecord(steps) && IsStarted(Last(ws), task, tag)
  {
    ws, steps := First(task, tag, true, a);
    ws, steps := Take(ws, steps, a, 0, 7, task, FirstRow(task, tag));
    ws, steps := Go(ws, steps, a, Mark(0, 1));
    assert Last(ws).rows == [StartedRow(task, tag)];
  }

  lemma OtherTask()
    ensures LogicalIdOf(ILLUMINATE) != LogicalIdOf(INDEX)
  {
    TargetsAreNamed(ILLUMINATE);
    TargetsAreNamed(INDEX);
    if LogicalIdOf(ILLUMINATE) == LogicalIdOf(INDEX) {
      LogicalIdInjective(TargetOf(ILLUMINATE), TargetOf(INDEX));
    }
  }

  // ---- E1-E3 are needed -----------------------------------------------------------------------

  /** Row `k` was settled one step ago and is in flight now. */
  predicate Resurrected(ws: seq<World>, k: nat) {
    && |ws| >= 2 && k < |ws[|ws| - 2].rows| && k < |Last(ws).rows|
    && !InFlight(ws[|ws| - 2].rows[k]) && InFlight(Last(ws).rows[k])
  }

  lemma Overlapping(a: Assumed) returns (ws: seq<World>, steps: seq<Step>)
    requires !a.noOverlap
    ensures Scenario(ws, steps, a)
    ensures var w := Last(ws);
      && w.maxAttempts == 3 && w.rows == [FirstRow(INDEX, None)]
      && w.workers == map[0 := Worker(7, INDEX, Marking(1)), 1 := Worker(7, INDEX, Marking(1))]
  {
    ws, steps := First(INDEX, None, true, a);
    ws, steps := Take(ws, steps, a, 0, 7, INDEX, FirstRow(INDEX, None));
    ws, steps := Take(ws, steps, a, 1, 7, INDEX, FirstRow(INDEX, None));
  }

  /** Without E1 two overlapping deliveries let a failure overwrite a recorded success. */
  lemma OverlapOverwritesSuccess() returns (ws: seq<World>, steps: seq<Step>)
    ensures Scenario(ws, steps, Assumed(false, true, true)) && Resurrected(ws, 0)
    ensures HasStatus(ws[|ws| - 2].rows[0], CompleteSuccess)
  {
    var a := Assumed(false, true, true);
    ws, steps := Overlapping(a);
    ws, steps := Go(ws, steps, a, Mark(0, 1));
    ws, steps := Go(ws, steps, a, Mark(1, 2));
    ws, steps := Go(ws, steps, a, Record(0, Ok, 3));
    ws, steps := Go(ws, steps, a, Record(1, Err(500, 500), 4));
  }

  lemma RejectedDelivery(a: Assumed) returns (ws: seq<World>, steps: seq<Step>)
    requires !a.onlyAccepted
    ensures Scenario(ws, steps, a)
    ensures var w := Last(ws);
      && w.rows == [FirstRow(INDEX, None)] && w.workers == map[0 := Worker(7, INDEX, Marking(1))]
      && 0 in w.submitters && w.submitters[0].phase == Rejecting(7, 1)
  {
    ws, steps := First(INDEX, None, false, a);
    ws, steps := Take(ws, steps, a, 0, 7, INDEX, FirstRow(INDEX, None));
  }

  /** Without E2 a delivery of a rejected hand-over takes up a run marked as a failed submission. */
  lemma RejectedDeliveryRevivesRun() returns (ws: seq<World>, steps: seq<Step>)
    ensures Scenario(ws, steps, Assumed(true, false, true)) && Resurrected(ws, 0)
    ensures HasStatus(ws[|ws| - 2].rows[0], SubmissionFailed)
  {
    var a := Assumed(true, false, true);
    ws, steps := RejectedDelivery(a);
    ws, steps := Go(ws, steps, a, MarkRejected(0, 1));
    ws, steps := Go(ws, steps, a, Mark(0, 2));
  }

  function FailedRow(): Row {
    Apply(StartedRow(INDEX, None), Fail(CompleteFailure, 1, 400), 2)
  }

  /** Step 8 records the failure of run 7; worker 0 has not answered yet. */
  predicate FailedAtStep8(ws: seq<World>, steps: seq<Step>) {
    && |ws| == |steps| + 1 && |steps| > 8 && steps[8] == Record(0, Err(400, 400), 2)
    && |ws[8].rows| == 1 && ws[8].rows[0].run == RunNo(INDEX, None, 7, 1)
    && 0 in ws[8].workers && ws[8].workers[0].runId == 7 && ws[9].rows == [FailedRow()]
  }

  lemma Failed(a: Assumed) returns (ws: seq<World>, steps: seq<Step>)
    ensures Scenario(ws, steps, a) && |steps| == 9 && FailedAtStep8(ws, steps)
    ensures var w := Last(ws);
      && w.rows == [FailedRow()] && w.workers == map[0 := Worker(7, INDEX, Responding(200))]
      && OnlyAccepted(w, 7, INDEX) && 1 !in w.submitters
  {
    ws, steps := Started(INDEX, None, a);
    ws, steps := Go(ws, steps, a, Record(0, Err(400, 400), 2));
    assert Last(ws).rows == [FailedRow()];
  }

  /** A second submitter has read that run 7 is settled. */
  predicate SecondReads(w: World) {
    && w.rows == [FailedRow()] && OnlyAccepted(w, 7, INDEX)
    && 1 in w.submitters && w.submitters[1].phase == Inserting(2)
    && RunOf(w.submitters[1], 8, 2) == RunNo(INDEX, None, 8, 2)
  }

  lemma SecondReader(ws: seq<World>, steps: seq<Step>, a: Assumed) returns (ws': seq<World>, steps': seq<Step>)
    requires Scenario(ws, steps, a) && FailedAtStep8(ws, steps) && 1 !in Last(ws).submitters
    requires Last(ws).rows == [FailedRow()] && OnlyAccepted(Last(ws), 7, INDEX)
    ensures Scenario(ws', steps', a) && |steps'| == |steps| + 3 && FailedAtStep8(ws', steps')
    ensures SecondReads(Last(ws')) && Last(ws').workers == Last(ws).workers
  {
    ws', steps' := Read(ws, steps, a, 1, INDEX, None);
  }

  /** Run 7 has failed for good and been acknowledged, and run 8 is queued. */
  lemma Rerun(a: Assumed) returns (ws: seq<World>, steps: seq<Step>)
    ensures Scenario(ws, steps, a)
    ensures var w := Last(ws);
      && w.rows == [FailedRow(), NewRow(RunNo(INDEX, None, 8, 2), 3)]
      && w.workers == map[0 := Worker(7, INDEX, Closed)] && OnlyAccepted(w, 7, INDEX)
  {
    ws, steps := Failed(a);
    ws, steps := Go(ws, steps, a, Respond(0));
    ws, steps := SecondReader(ws, steps, a);
    ws, steps := Go(ws, steps, a, Insert(1, 8, 3));
  }

  /** Without E3 an exhausted run is taken up again beside its successor: two runs of one task in flight. */
  lemma ExhaustedRedeliveryDoublesWork() returns (ws: seq<World>, steps: seq<Step>)
    ensures Scenario(ws, steps, Assumed(true, true, false)) && Resurrected(ws, 0)
    ensures HasStatus(ws[|ws| - 2].rows[0], CompleteFailure)
    ensures |Last(ws).rows| == 2 && InFlight(Last(ws).rows[1])
    ensures Last(ws).rows[0].run.logicalId == Last(ws).rows[1].run.logicalId
  {
    var a := Assumed(true, true, false);
    ws, steps := Rerun(a);
    ws, steps := Take(ws, steps, a, 1, 7, INDEX, FailedRow());
    ws, steps := Go(ws, steps, a, Mark(1, 4));
  }

  // ---- A stranded run -------------------------------------------------------------------------

  /** With E1-E3, a submitter that stops after its insert leaves a run in flight that nobody holds and the queue
      does not know. */
  lemma StoppedSubmitterStrandsRun() returns (ws: seq<World>, steps: seq<Step>)
    ensures IsPermittedRun(ws, steps)
    ensures var w := Last(ws);
      |w.rows| == 1 && InFlight(w.rows[0]) && !Held(w, w.rows[0].run.runId) && !Owed(w, w.rows[0].run.runId)
  {
    ws, steps := [EMPTY], [];
    ws, steps := Read(ws, steps, ALL, 0, INDEX, None);
    assert Last(ws).submitters[0].phase == Inserting(1);
    ws, steps := Go(ws, steps, ALL, Insert(0, 7, 0));
    ws, steps := Go(ws, steps, ALL, AbandonSubmit(0));
    AllIsPermitted(ws, steps);
  }

  // ---- A late announcement --------------------------------------------------------------------

  /** Step 8 records the failure of run 7, and step 12 inserts run 8 before the failure is announced. */
  lemma InsertedBeforeAnnouncement() returns (ws: seq<World>, steps: seq<Step>)
    ensures Scenario(ws, steps, ALL) && |steps| == 13 && FailedAtStep8(ws, steps)
    ensures steps[12].Insert? && |ws[12].rows| == 1
    ensures Last(ws).rows == [FailedRow(), NewRow(RunNo(INDEX, None, 8, 2), 3)]
    ensures 0 in Last(ws).workers && Last(ws).workers[0].phase == Responding(200)
  {
    ws, steps := Failed(ALL);
    ws, steps := SecondReader(ws, steps, ALL);
    ws, steps := Go(ws, steps, ALL, Insert(1, 8, 3));
  }

  const EARLY := Publication(12, 1, None)
  const LATE := Publication(8, 0, None)

  /** The owner's query for the capture of the index task. */
  const QUERY := Query(1, "capture", [1])

  function Announcement(row: Row): Stream.Event
    requires 0 <= row.statusCode <= 5
  {
    Stream.Event(Some(row.target.ownerId), FromRow(row, None).value)
  }

  /** A client of owner 1 with an empty catch-up that has received these two broadcasts. */
  lemma ReceiveBoth(x: Stream.Event, y: Stream.Event) returns (ss: seq<Stream.Stream>, moves: seq<Stream.Step>)
    requires x.ownerId == Some(1) && y.ownerId == Some(1)
    ensures Stream.IsRun(ss, moves)
    ensures var t := ss[|moves|];
      && t.userId == 1 && t.catchup == [] && t.replayed == 0 && t.log == [x, y] && t.cursor == 2 && !t.ended
      && t.frames == [Stream.TaskStatus(x), Stream.TaskStatus(y)]
  {
    var s0 := Stream.Stream(1, [], 0, 16, [], 0, false, false, false, Stream.Top, false, []);
    var s1 := Stream.Next(s0, Stream.Broadcast(x));
    var s2 := Stream.Next(s1, Stream.Broadcast(y));
    var s3 := Stream.Next(s2, Stream.CheckShutdown);
    var s4 := Stream.Next(s3, Stream.Recv);
    var s5 := Stream.Next(s4, Stream.CheckShutdown);
    var s6 := Stream.Next(s5, Stream.Recv);
    ss := [s0, s1, s2, s3, s4, s5, s6];
    moves := [Stream.Broadcast(x), Stream.Broadcast(y), Stream.CheckShutdown, Stream.Recv, Stream.CheckShutdown,
              Stream.Recv];
  }

  /** With E1-E3, the failure of run 7 is broadcast after the start of run 8, which was written later. The client
      has received both, and its last frame about the task does not carry the newest status. */
  lemma LateAnnouncementHidesNewerRun()
    returns (ws: seq<World>, steps: seq<Step>, ss: seq<Stream.Stream>, moves: seq<Stream.Step>)
    ensures IsPermittedRun(ws, steps) && Stream.IsRun(ss, moves) && |ws| > 0
    ensures IsLatestPerGroup(ws[0].rows, QUERY, []) && IsLog(ws, steps, [EARLY, LATE], ss[|moves|].log, |steps|)
    ensures var t := ss[|moves|]; t.catchup == [] && t.replayed == 0 && t.cursor == |t.log| && !t.ended
    ensures !ShowsNewest(Stream.StatusEvents(ss[|moves|].frames), LogicalIdOf(INDEX),
               LatestRun(Last(ws).rows, LogicalIdOf(INDEX)))
  {
    var x, y;
    ws, steps, x, y := AnnouncedLate();
    ss, moves := ReceiveBoth(x, y);
    TwoFrames(x, y);
    LastAboutIsUnique([x, y], 1, LogicalIdOf(INDEX), LatestRun(Last(ws).rows, LogicalIdOf(INDEX)));
  }

  /** The run, and its two announcements in the order in which they are broadcast: run 8 first, run 7 second. */
  lemma AnnouncedLate() returns (ws: seq<World>, steps: seq<Step>, x: Stream.Event, y: Stream.Event)
    ensures IsPermittedRun(ws, steps) && IsLatestPerGroup(ws[0].rows, QUERY, [])
    ensures IsLog(ws, steps, [EARLY, LATE], [x, y], |steps|)
    ensures x == Announcement(NewRow(RunNo(INDEX, None, 8, 2), 3)) && y == Announcement(FailedRow())
    ensures LatestRun(Last(ws).rows, LogicalIdOf(INDEX)) == Some(NewRow(RunNo(INDEX, None, 8, 2), 3))
  {
    ws, steps := InsertedBeforeAnnouncement();
    AllIsPermitted(ws, steps);
    assert StepAt(ws, steps, 8) && StepAt(ws, steps, 12) && Last(ws) == ws[13];
    x, y := Announcement(ws[13].rows[1]), Announcement(ws[9].rows[0]);
    assert LogAt(ws, steps, EARLY, x, 13) && LogAt(ws, steps, LATE, y, 13);
  }

  lemma TwoFrames(x: Stream.Event, y: Stream.Event)
    ensures Stream.StatusEvents([Stream.TaskStatus(x), Stream.TaskStatus(y)]) == [x, y]
  {
    var one := [Stream.TaskStatus(x)];
    assert one[..0] == [] && [Stream.TaskStatus(x), Stream.TaskStatus(y)][..1] == one;
    assert Stream.StatusEvents([]) == [] && Stream.StatusEvents(one) == [x];
  }

  // ---- Follow-ups -----------------------------------------------------------------------------

  function IndexRow(tag: Option<string>): Row {
    NewRow(RunNo(INDEX, tag, 8, 1), 2)
  }

  function RunningIndexRow(tag: Option<string>): Row {
    Apply(IndexRow(tag), Start(1), 3)
  }

  function FirstReader(tag: Option<string>): Submitter {
    Submitter(INDEX, tag, LogicalIdOf(INDEX), Inserting(1), 1, 1, None)
  }

  /** The illumination is being executed by worker 0, and run 8 of the index task, handed over by submitter `s`,
      is being executed by worker 1. */
  predicate IndexRuns(w: World, tag: Option<string>) {
    && w.maxAttempts == 3 && w.rows == [StartedRow(ILLUMINATE, tag), RunningIndexRow(tag)]
    && w.workers == map[0 := Worker(7, ILLUMINATE, Executing(1)), 1 := Worker(8, INDEX, Executing(1))]
    && OnlyAccepted(w, 7, ILLUMINATE)
  }

  /** A submitter that has read no index run hands over run 8, and worker 1 starts it. */
  lemma RunIndex(ws: seq<World>, steps: seq<Step>, s: nat, tag: Option<string>)
    returns (ws': seq<World>, steps': seq<Step>)
    requires Scenario(ws, steps, ALL) && s in Last(ws).submitters && Last(ws).submitters[s] == FirstReader(tag)
    requires Last(ws).maxAttempts == 3 && Last(ws).rows == [StartedRow(ILLUMINATE, tag)]
    requires Last(ws).workers == map[0 := Worker(7, ILLUMINATE, Executing(1))]
    requires OnlyAccepted(Last(ws), 7, ILLUMINATE)
    ensures Scenario(ws', steps', ALL) && IndexRuns(Last(ws'), tag) && (NoRecord(steps) ==> NoRecord(steps'))
    ensures forall t | t in Last(ws).submitters && t != s ::
      t in Last(ws').submitters && Last(ws').submitters[t] == Last(ws).submitters[t]
    ensures forall t | t in Last(ws').submitters :: t == s || t in Last(ws).submitters
  {
    ws', steps' := TakeIndex(ws, steps, s, tag);
    ws', steps' := Go(ws', steps', ALL, Mark(1, 3));
    assert Last(ws').rows == [StartedRow(ILLUMINATE, tag), RunningIndexRow(tag)];
  }

  lemma TakeIndex(ws: seq<World>, steps: seq<Step>, s: nat, tag: Option<string>)
    returns (ws': seq<World>, steps': seq<Step>)
    requires Scenario(ws, steps, ALL) && s in Last(ws).submitters && Last(ws).submitters[s] == FirstReader(tag)
    requires Last(ws).maxAttempts == 3 && Last(ws).rows == [StartedRow(ILLUMINATE, tag)]
    requires Last(ws).workers == map[0 := Worker(7, ILLUMINATE, Executing(1))]
    requires OnlyAccepted(Last(ws), 7, ILLUMINATE)
    ensures Scenario(ws', steps', ALL) && (NoRecord(steps) ==> NoRecord(steps'))
    ensures var w, w' := Last(ws), Last(ws');
      && w'.maxAttempts == 3 && w'.rows == [StartedRow(ILLUMINATE, tag), IndexRow(tag)]
      && w'.workers == map[0 := Worker(7, ILLUMINATE, Executing(1)), 1 := Worker(8, INDEX, Marking(1))]
      && OnlyAccepted(w', 7, ILLUMINATE) && s in w'.submitters && w'.submitters == w.submitters[s := w'.submitters[s]]
  {
    OtherTask();
    ws', steps' := Hand(ws, steps, ALL, s, RunNo(INDEX, tag, 8, 1), 2, true);
    assert FindRun(Last(ws').rows, 8) == Some(IndexRow(tag));
    ws', steps' := Take(ws', steps', ALL, 1, 8, INDEX, IndexRow(tag));
  }

  /** Another submitter's index run is being executed while the illumination is. */
  lemma ForeignIndexRuns() returns (ws: seq<World>, steps: seq<Step>)
    ensures Scenario(ws, steps, ALL) && NoRecord(steps) && IndexRuns(Last(ws), None) && 1 !in Last(ws).submitters
  {
    OtherTask();
    ws, steps := Started(ILLUMINATE, None, ALL);
    ws, steps := Read(ws, steps, ALL, 2, INDEX, None);
    assert Last(ws).submitters[2] == FirstReader(None);
    ws, steps := RunIndex(ws, steps, 2, None);
  }

  /** The follow-up of the illumination, submitter 1, reads that run in progress and is refused. */
  lemma RefusedWhileRunning() returns (ws: seq<World>, steps: seq<Step>, e: nat)
    ensures Scenario(ws, steps, ALL) && |steps| == e + 4 && steps[e] == StartSubmit(1, INDEX, None)
    ensures NoRecord(steps) && forall i | e <= i < |steps| :: !steps[i].Mark?
    ensures IndexRuns(ws[e], None) && IndexRuns(Last(ws), None) && 1 in Last(ws).submitters
    ensures Last(ws).submitters[1].phase == Answered(RefusedInFlight)
    ensures Last(ws).submitters[1].task == INDEX && Last(ws).submitters[1].backfill == None
  {
    OtherTask();
    ws, steps := ForeignIndexRuns();
    e := |steps|;
    assert LatestRun(Last(ws).rows, LogicalIdOf(INDEX)) == Some(RunningIndexRow(None));
    ws, steps := Read(ws, steps, ALL, 1, INDEX, None);
    assert Last(ws).submitters[1].phase == RecheckingRefusal;
    ws, steps := Go(ws, steps, ALL, RecheckRefusal(1));
  }

  /** With E1-E3, the follow-up of an illumination is refused because the index run it read was in progress; that
      run and the illumination then succeed although no attempt starts after the follow-up did, at step `e`: the
      index may miss what the illumination stored. */
  lemma RefusedFollowUpMayBeStale() returns (ws: seq<World>, steps: seq<Step>, e: nat)
    ensures IsPermittedRun(ws, steps) && e < |steps| && steps[e] == StartSubmit(1, INDEX, None)
    ensures IsRouted(ws, steps) && forall i | e <= i < |steps| :: !steps[i].Mark?
    ensures var w := Last(ws);
      && |w.rows| == 2 && HasStatus(w.rows[0], CompleteSuccess) && HasStatus(w.rows[1], CompleteSuccess)
      && w.rows[1].run.task == INDEX && 1 in w.submitters && FollowsUp(w.submitters[1], w.rows[0].run)
      && w.submitters[1].phase == Answered(RefusedInFlight)
  {
    ws, steps, e := RefusedWhileRunning();
    ghost var n := |steps|;
    ws, steps := Go(ws, steps, ALL, Record(1, Ok, 4));
    ws, steps := Go(ws, steps, ALL, Record(0, Ok, 5));
    AllIsPermitted(ws, steps);
    forall i | 0 <= i < |steps| ensures RoutedAt(ws, steps, i) {
      if i == n + 1 {
        assert FollowedUp(ws, steps, e, i, 1, ws[i].rows[0].run);
      }
    }
  }

  /** The follow-up and a second submitter of the index task have both read that there is no index run; the
      second wins. */
  lemma SecondWins() returns (ws: seq<World>, steps: seq<Step>)
    ensures Scenario(ws, steps, ALL) && IndexRuns(Last(ws), None)
    ensures 1 in Last(ws).submitters && Last(ws).submitters[1] == FirstReader(None)
  {
    OtherTask();
    ws, steps := Started(ILLUMINATE, None, ALL);
    ws, steps := Read(ws, steps, ALL, 1, INDEX, None);
    ws, steps := Read(ws, steps, ALL, 2, INDEX, None);
    assert Last(ws).submitters[1] == FirstReader(None) && Last(ws).submitters[2] == FirstReader(None);
    ws, steps := RunIndex(ws, steps, 2, None);
  }

  /** With E1-E3, an untagged follow-up loses the race to another index submission whose run is already done
      when the follow-up is refused, and the illumination is recorded as a success: no row is in flight and
      none carries a tag. */
  lemma RefusedFollowUpFindsNothingInFlight() returns (ws: seq<World>, steps: seq<Step>)
    ensures IsPermittedRun(ws, steps)
    ensures var w := Last(ws);
      && 1 in w.submitters && w.submitters[1].phase == Answered(RefusedInFlight)
      && |w.rows| == 2 && HasStatus(w.rows[0], CompleteSuccess) && FollowsUp(w.submitters[1], w.rows[0].run)
      && (forall k | 0 <= k < |w.rows| :: !InFlight(w.rows[k]) && w.rows[k].run.backfillId == None)
  {
    ws, steps := SecondWins();
    ws, steps := Go(ws, steps, ALL, Record(1, Ok, 4));
    assert OrdinalTaken(Last(ws).rows, LogicalIdOf(INDEX), 1) by {
      assert Last(ws).rows[1].run == RunNo(INDEX, None, 8, 1);
    }
    ws, steps := Go(ws, steps, ALL, Insert(1, 9, 5));
    assert Last(ws).submitters[1].phase == RecheckingLoss(1);
    ws, steps := Go(ws, steps, ALL, RecheckLoss(1));
    ws, steps := Go(ws, steps, ALL, Record(0, Ok, 6));
    AllIsPermitted(ws, steps);
  }

  const TAG := Some("backfill")

  lemma TaggedIndexRuns() returns (ws: seq<World>, steps: seq<Step>)
    ensures Scenario(ws, steps, ALL) && IndexRuns(Last(ws), TAG) && 2 !in Last(ws).submitters
  {
    OtherTask();
    ws, steps := Started(ILLUMINATE, TAG, ALL);
    assert FindKey(Last(ws).rows, TAG, LogicalIdOf(INDEX)).None?;
    ws, steps := Read(ws, steps, ALL, 1, INDEX, TAG);
    assert Last(ws).submitters[1] == FirstReader(TAG);
    ws, steps := RunIndex(ws, steps, 1, TAG);
  }

  /** A tagged illumination stores its result, its follow-up's index run 8 is done, and then its worker crashes. */
  lemma CrashAfterFollowUp() returns (ws: seq<World>, steps: seq<Step>)
    ensures Scenario(ws, steps, ALL)
    ensures var w := Last(ws);
      && w.maxAttempts == 3 && |w.rows| == 2 && w.rows[0] == StartedRow(ILLUMINATE, TAG)
      && w.rows[1].run == RunNo(INDEX, TAG, 8, 1) && HasStatus(w.rows[1], CompleteSuccess)
      && w.workers.Keys == {0, 1} && w.workers[0] == Worker(7, ILLUMINATE, Crashed) && w.workers[1].runId == 8
      && OnlyAccepted(w, 7, ILLUMINATE) && 2 !in w.submitters
  {
    ws, steps := TaggedIndexRuns();
    ws, steps := Go(ws, steps, ALL, Record(1, Ok, 4));
    ws, steps := Go(ws, steps, ALL, Crash(0));
  }

  /** The illumination is delivered again and stores a second result. */
  lemma StoredTwice() returns (ws: seq<World>, steps: seq<Step>)
    ensures Scenario(ws, steps, ALL)
    ensures var w := Last(ws);
      && w.maxAttempts == 3 && |w.rows| == 2 && w.rows[0].run == RunNo(ILLUMINATE, TAG, 7, 1)
      && w.rows[1].run == RunNo(INDEX, TAG, 8, 1) && HasStatus(w.rows[1], CompleteSuccess)
      && 2 in w.workers && w.workers[2] == Worker(7, ILLUMINATE, Executing(2)) && 2 !in w.submitters
  {
    ws, steps := CrashAfterFollowUp();
    assert FindRun(Last(ws).rows, 7) == Some(StartedRow(ILLUMINATE, TAG));
    ws, steps := Take(ws, steps, ALL, 2, 7, ILLUMINATE, StartedRow(ILLUMINATE, TAG));
    ws, steps := Go(ws, steps, ALL, Mark(2, 5));
  }

  /** With E1-E3, the second follow-up of a tagged illumination, started at step `e`, is told that the index run was
      already submitted. That run succeeded before, the illumination now succeeds, no attempt starts after `e`, and
      no other run will carry the tag: the index stays on the first result. */
  lemma TaggedFollowUpStaysStale() returns (ws: seq<World>, steps: seq<Step>, e: nat)
    ensures IsPermittedRun(ws, steps) && e < |steps| && steps[e] == StartSubmit(2, INDEX, TAG)
    ensures |ws[e].rows| == 2 && HasStatus(ws[e].rows[1], CompleteSuccess)
    ensures forall i | e <= i < |steps| :: !steps[i].Mark?
    ensures var w := Last(ws);
      && |w.rows| == 2 && HasStatus(w.rows[0], CompleteSuccess)
      && 2 in w.submitters && FollowsUp(w.submitters[2], w.rows[0].run)
      && w.submitters[2].phase == Answered(AlreadySubmitted(8, 1)) && w.rows[1].run == RunNo(INDEX, TAG, 8, 1)
  {
    OtherTask();
    ws, steps := StoredTwice();
    e := |steps|;
    assert FindKey(Last(ws).rows, TAG, LogicalIdOf(INDEX)) == Some(Last(ws).rows[1]);
    ws, steps := Go(ws, steps, ALL, StartSubmit(2, INDEX, TAG));
    ws, steps := Go(ws, steps, ALL, CheckKey(2));
    ws, steps := Go(ws, steps, ALL, Record(2, Ok, 6));
    AllIsPermitted(ws, steps);
  }
}
