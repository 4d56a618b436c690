/** Whether a run in flight can still be settled: its submitter is still at work on it, or the queue still owes
    it a delivery. The only way to strand it is a submitter that stops between its insert and the end of its
    hand-over, and then it is stranded for ever. */
module Settlement {
  import opened Options
  import opened Statuses
  import opened Tasks
  import opened RunTable
  import opened Protocol
  import opened ProtocolSafety
  import opened Discipline
  import opened DisciplineSafety
  import opened Redelivery

  /** A submitter has inserted the run and has not finished handing it over. */
  predicate Held(w: World, id: nat) {
    exists s | s in w.submitters :: HoldsRun(w.submitters[s]) && w.submitters[s].phase.runId == id
  }

  /** The queue accepted the run and has not seen it acknowledged. */
  predicate Owed(w: World, id: nat) {
    HandedOver(w.queue, id) && w.queue[id].acked == 0
  }

  /** Step `i` is a submitter stopping while it holds the run. */
  predicate AbandonedAt(ws: seq<World>, steps: seq<Step>, i: nat, id: nat)
    requires |ws| == |steps| + 1 && i < |steps|
  {
    && steps[i].AbandonSubmit? && steps[i].s in ws[i].submitters
    && HoldsRun(ws[i].submitters[steps[i].s]) && ws[i].submitters[steps[i].s].phase.runId == id
  }

  predicate Abandoned(ws: seq<World>, steps: seq<Step>, n: nat, id: nat)
    requires |ws| == |steps| + 1 && n < |ws|
  {
    exists i | 0 <= i < n :: AbandonedAt(ws, steps, i, id)
  }

  // ---- Every run in flight is somebody's ------------------------------------------------------

  lemma HeldStep(w: World, step: Step, k: nat)
    requires Governed(w) && Enabled(w, step) && k < |w.rows| && k < |Next(w, step).rows|
    requires Held(w, w.rows[k].run.runId) && InFlight(Next(w, step).rows[k])
    ensures var id := w.rows[k].run.runId;
      || Held(Next(w, step), id) || HandedOver(Next(w, step).queue, id)
      || (step.AbandonSubmit? && HoldsRun(w.submitters[step.s]) && w.submitters[step.s].phase.runId == id)
  {
    var id, w' := w.rows[k].run.runId, Next(w, step);
    var s :| s in w.submitters && HoldsRun(w.submitters[s]) && w.submitters[s].phase.runId == id;
    if SubmitterStep(step) && step.s == s {
      HolderActs(w, step, k);
    } else {
      OthersStay(w, step, s);
      assert HoldsRun(w'.submitters[s]) && w'.submitters[s].phase.runId == id;
    }
  }

  lemma HolderActs(w: World, step: Step, k: nat)
    requires Enabled(w, step) && SubmitterStep(step) && step.s in w.submitters && HoldsRun(w.submitters[step.s])
    requires k < |w.rows| && w.submitters[step.s].phase.runId == w.rows[k].run.runId
    requires k < |Next(w, step).rows| && InFlight(Next(w, step).rows[k])
    ensures var id := w.rows[k].run.runId;
      step.AbandonSubmit? || Held(Next(w, step), id) || HandedOver(Next(w, step).queue, id)
  {
    if step.MarkRejected? {
      TableEffect(w, step);
    } else if step.Enqueue? && !step.accepted {
      assert HoldsRun(Next(w, step).submitters[step.s]);
    }
  }

  lemma OthersStay(w: World, step: Step, s: nat)
    requires Enabled(w, step) && s in w.submitters && !(SubmitterStep(step) && step.s == s)
    ensures s in Next(w, step).submitters && Next(w, step).submitters[s] == w.submitters[s]
  {
  }

  lemma NewRowIsHeld(w: World, step: Step)
    requires Enabled(w, step) && |Next(w, step).rows| > |w.rows|
    ensures Held(Next(w, step), Next(w, step).rows[|w.rows|].run.runId)
  {
    TableEffect(w, step);
    var w' := Next(w, step);
    assert HoldsRun(w'.submitters[step.s]) && w'.submitters[step.s].phase.runId == w'.rows[|w.rows|].run.runId;
  }

  lemma {:induction false} InFlightIsSomeones(ws: seq<World>, steps: seq<Step>, n: nat, k: nat)
    requires IsPermittedRun(ws, steps) && n < |ws| && k < |ws[n].rows| && InFlight(ws[n].rows[k])
    ensures var id := ws[n].rows[k].run.runId;
      Held(ws[n], id) || HandedOver(ws[n].queue, id) || Abandoned(ws, steps, n, id)
  {
    var m := n - 1;
    assert StepAt(ws, steps, m);
    GovernedHolds(ws, steps, m);
    RowsPersistOnce(ws, steps, m);
    if k >= |ws[m].rows| {
      TableEffect(ws[m], steps[m]);
      NewRowIsHeld(ws[m], steps[m]);
    } else {
      InFlightBefore(ws, steps, m, k);
      InFlightIsSomeones(ws, steps, m, k);
      var id := ws[m].rows[k].run.runId;
      if Abandoned(ws, steps, m, id) {
        var i :| 0 <= i < m && AbandonedAt(ws, steps, i, id);
      } else if HandedOver(ws[m].queue, id) {
        HandOversStay(ws[m], steps[m], id);
      } else {
        HeldStep(ws[m], steps[m], k);
        assert AbandonedAt(ws, steps, m, id) || Held(ws[n], id) || HandedOver(ws[n].queue, id);
      }
    }
  }

  lemma InFlightBefore(ws: seq<World>, steps: seq<Step>, m: nat, k: nat)
    requires IsPermittedRun(ws, steps) && m < |steps| && k < |ws[m].rows| && k < |ws[m + 1].rows|
    requires InFlight(ws[m + 1].rows[k])
    ensures InFlight(ws[m].rows[k])
  {
    if !InFlight(ws[m].rows[k]) {
      SettledForever(ws, steps, m, m + 1, k);
    }
  }

  // ---- An acknowledged run is settled ---------------------------------------------------------

  /** A worker about to answer with a 2xx has a settled run. */
  predicate AnswersSettled(w: World) {
    forall d, k | d in w.workers && 0 <= k < |w.rows| :: AnswerSettled(w.workers[d], w.rows[k])
  }

  predicate AnswerSettled(worker: Worker, row: Row) {
    row.run.runId == worker.runId && worker.phase.Responding? && IsSuccessCode(worker.phase.code) ==> !InFlight(row)
  }

  predicate AckedSettled(w: World) {
    forall id, k | id in w.queue && 0 <= k < |w.rows| :: AckSettled(w.queue[id], id, w.rows[k])
  }

  predicate AckSettled(m: Message, id: nat, row: Row) {
    row.run.runId == id && m.acked > 0 ==> !InFlight(row)
  }

  lemma AnswerStep(w: World, step: Step, d: nat, k: nat)
    requires Governed(w) && AnswersSettled(w) && Enabled(w, step)
    requires d in Next(w, step).workers && k < |Next(w, step).rows|
    ensures AnswerSettled(Next(w, step).workers[d], Next(w, step).rows[k])
  {
    OtherWorkersKept(w, step);
    if WorkerStep(step) && d == step.d {
      ActingAnswer(w, step, k);
    } else if k < |w.rows| {
      assert AnswerSettled(w.workers[d], w.rows[k]);
      RowMovesOnlyInFlight(w, step, k);
    } else {
      NewRowUnanswered(w, step, d, k);
    }
  }

  /** A settled row stays, and every row keeps its run. */
  lemma RowMovesOnlyInFlight(w: World, step: Step, k: nat)
    requires WorkersOk(w) && HoldersOk(w) && Enabled(w, step) && k < |w.rows|
    ensures k < |Next(w, step).rows| && Next(w, step).rows[k].run == w.rows[k].run
    ensures !InFlight(w.rows[k]) ==> Next(w, step).rows[k] == w.rows[k]
  {
    TableEffect(w, step);
    if !InFlight(w.rows[k]) {
      SettledStays(w, step, k);
    }
  }

  lemma NewRowUnanswered(w: World, step: Step, d: nat, k: nat)
    requires Invariant(w) && WorkersOk(w) && Enabled(w, step) && d in w.workers
    requires |w.rows| <= k < |Next(w, step).rows|
    ensures AnswerSettled(w.workers[d], Next(w, step).rows[k])
  {
    TableEffect(w, step);
    QueuedIdsTaken(w, w.workers[d].runId);
    assert WorkerOk(w, w.workers[d]);
  }

  lemma ActingAnswer(w: World, step: Step, k: nat)
    requires UniqueIds(w.rows) && Enabled(w, step) && WorkerStep(step) && k < |Next(w, step).rows|
    ensures AnswerSettled(Next(w, step).workers[step.d], Next(w, step).rows[k])
  {
    if step.Record? {
      RecordedAnswer(w, step, k);
    } else if step.Begin? {
      IgnoredIsSettled(w, w.workers[step.d].runId, k);
    }
  }

  lemma RecordedAnswer(w: World, step: Step, k: nat)
    requires Enabled(w, step) && step.Record? && k < |Next(w, step).rows|
    ensures AnswerSettled(Next(w, step).workers[step.d], Next(w, step).rows[k])
  {
    TableEffect(w, step);
    AcknowledgedIffTerminal(step.result, w.workers[step.d].phase.attempt, w.maxAttempts);
  }

  lemma IgnoredIsSettled(w: World, id: nat, k: nat)
    requires UniqueIds(w.rows) && k < |w.rows|
    ensures w.rows[k].run.runId == id && DecideNextAttempt(FindRun(w.rows, id)).None? ==> !InFlight(w.rows[k])
  {
    if w.rows[k].run.runId == id {
      var row := FindRun(w.rows, id).value;
      var j :| 0 <= j < |w.rows| && w.rows[j] == row;
      assert j == k;
    }
  }

  lemma AckStep(w: World, step: Step, id: nat, k: nat)
    requires Governed(w) && AnswersSettled(w) && AckedSettled(w) && Enabled(w, step)
    requires id in Next(w, step).queue && k < |Next(w, step).rows|
    ensures AckSettled(Next(w, step).queue[id], id, Next(w, step).rows[k])
  {
    if k >= |w.rows| {
      NewRowUnacked(w, step, id, k);
    } else if Next(w, step).queue[id].acked > 0 {
      RowMovesOnlyInFlight(w, step, k);
      AcksMove(w, step, id);
      if w.queue[id].acked > 0 {
        assert AckSettled(w.queue[id], id, w.rows[k]);
      } else {
        assert AnswerSettled(w.workers[step.d], w.rows[k]);
      }
    }
  }

  lemma NewRowUnacked(w: World, step: Step, id: nat, k: nat)
    requires Invariant(w) && Enabled(w, step) && id in Next(w, step).queue
    requires |w.rows| <= k < |Next(w, step).rows|
    ensures AckSettled(Next(w, step).queue[id], id, Next(w, step).rows[k])
  {
    TableEffect(w, step);
    QueuedIdsTaken(w, id);
  }

  lemma AcksMove(w: World, step: Step, id: nat)
    requires Enabled(w, step) && id in Next(w, step).queue && Next(w, step).queue[id].acked > 0
    ensures id in w.queue
    ensures w.queue[id].acked > 0
      || (step.Respond? && w.workers[step.d].runId == id && IsSuccessCode(w.workers[step.d].phase.code))
  {
  }

  lemma {:induction false} AcknowledgedIsSettled(ws: seq<World>, steps: seq<Step>, n: nat)
    requires IsPermittedRun(ws, steps) && n < |ws|
    ensures AnswersSettled(ws[n]) && AckedSettled(ws[n])
  {
    if n > 0 {
      var w, step := ws[n - 1], steps[n - 1];
      AcknowledgedIsSettled(ws, steps, n - 1);
      GovernedHolds(ws, steps, n - 1);
      assert StepAt(ws, steps, n - 1);
      forall d, k | d in ws[n].workers && 0 <= k < |ws[n].rows| ensures AnswerSettled(ws[n].workers[d], ws[n].rows[k]) {
        AnswerStep(w, step, d, k);
      }
      forall id, k | id in ws[n].queue && 0 <= k < |ws[n].rows| ensures AckSettled(ws[n].queue[id], id, ws[n].rows[k]) {
        AckStep(w, step, id, k);
      }
    }
  }

  // ---- Stranded runs --------------------------------------------------------------------------

  /** Nobody holds the run, the queue never accepted it, and its row is queued. */
  predicate Orphan(w: World, k: nat)
    requires k < |w.rows|
  {
    var id := w.rows[k].run.runId;
    !Held(w, id) && !HandedOver(w.queue, id) && HasStatus(w.rows[k], Queued)
  }

  lemma AbandoningOrphans(w: World, step: Step, k: nat)
    requires Governed(w) && Enabled(w, step) && step.AbandonSubmit? && k < |w.rows|
    requires HoldsRun(w.submitters[step.s]) && w.submitters[step.s].phase.runId == w.rows[k].run.runId
    ensures k < |Next(w, step).rows| && Orphan(Next(w, step), k)
  {
    assert HolderOk(w, w.submitters[step.s]);
    var id := w.rows[k].run.runId;
    if w.submitters[step.s].phase.Enqueueing? {
      assert id !in w.enqueueCalls;
    }
  }

  lemma OrphansUnheld(w: World, step: Step, k: nat)
    requires Enabled(w, step) && k < |w.rows| && !Held(w, w.rows[k].run.runId)
    ensures !Held(Next(w, step), w.rows[k].run.runId)
  {
    var id, w' := w.rows[k].run.runId, Next(w, step);
    assert IdTaken(w.rows, id);
    forall s | s in w'.submitters && HoldsRun(w'.submitters[s]) ensures w'.submitters[s].phase.runId != id {
      OtherSubmittersKept(w, step);
      if SubmitterStep(step) && s == step.s && !step.Insert? {
        HeldBefore(w, step);
      }
    }
  }

  lemma OrphansUnwritten(w: World, step: Step, k: nat)
    requires WorkersOk(w) && Enabled(w, step) && k < |w.rows| && Orphan(w, k)
    ensures k < |Next(w, step).rows| && Next(w, step).rows[k] == w.rows[k]
  {
    TableEffect(w, step);
    match step
    case MarkRejected(s, _) => assert w.submitters[s].phase.runId != w.rows[k].run.runId;
    case Mark(d, _) => assert WorkerOk(w, w.workers[d]);
    case Record(d, _, _) => assert WorkerOk(w, w.workers[d]);
    case _ =>
  }

  lemma OrphansUnaccepted(w: World, step: Step, id: nat)
    requires Enabled(w, step) && !Held(w, id) && !HandedOver(w.queue, id)
    ensures !HandedOver(Next(w, step).queue, id)
  {
    if step.Enqueue? {
      assert w.submitters[step.s].phase.runId != id;
    }
  }

  /** Once stranded, for ever stranded. */
  lemma {:induction false} OrphanForever(ws: seq<World>, steps: seq<Step>, a: nat, n: nat, k: nat)
    requires IsPermittedRun(ws, steps) && a <= n < |ws| && k < |ws[a].rows| && Orphan(ws[a], k)
    ensures k < |ws[n].rows| && Orphan(ws[n], k) && ws[n].rows[k] == ws[a].rows[k]
    decreases n
  {
    if a < n {
      OrphanForever(ws, steps, a, n - 1, k);
      var w, step := ws[n - 1], steps[n - 1];
      GovernedHolds(ws, steps, n - 1);
      assert StepAt(ws, steps, n - 1);
      OrphansUnwritten(w, step, k);
      OrphansUnheld(w, step, k);
      OrphansUnaccepted(w, step, w.rows[k].run.runId);
    }
  }

  lemma AbandonedIsOrphan(ws: seq<World>, steps: seq<Step>, i: nat, n: nat, k: nat)
    requires IsPermittedRun(ws, steps) && i < n < |ws| && k < |ws[n].rows|
    requires AbandonedAt(ws, steps, i, ws[n].rows[k].run.runId)
    ensures Orphan(ws[n], k)
  {
    var s, id := steps[i].s, ws[n].rows[k].run.runId;
    assert StepAt(ws, steps, i);
    GovernedHolds(ws, steps, i);
    InvariantHolds(ws, steps, n);
    assert SubmitterOk(ws[i].rows, ws[i].submitters[s]);
    var j :| 0 <= j < |ws[i].rows| && ws[i].rows[j].run.runId == id;
    RowsPersist(ws, steps, i, n);
    assert j == k;
    AbandoningOrphans(ws[i], steps[i], k);
    OrphanForever(ws, steps, i + 1, n, k);
  }

  /** With well-behaved deliveries a run in flight is held by its submitter or owed a delivery by the queue,
      except exactly when its submitter stopped between the insert and the end of the hand-over. */
  lemma StrandedIff(ws: seq<World>, steps: seq<Step>, n: nat, k: nat)
    requires IsPermittedRun(ws, steps) && n < |ws| && k < |ws[n].rows|
    ensures var id := ws[n].rows[k].run.runId;
      InFlight(ws[n].rows[k]) && !Held(ws[n], id) && !Owed(ws[n], id) <==> Abandoned(ws, steps, n, id)
  {
    var id := ws[n].rows[k].run.runId;
    if Abandoned(ws, steps, n, id) {
      var i :| 0 <= i < n && AbandonedAt(ws, steps, i, id);
      AbandonedIsOrphan(ws, steps, i, n, k);
    } else if InFlight(ws[n].rows[k]) {
      InFlightIsSomeones(ws, steps, n, k);
      AcknowledgedIsSettled(ws, steps, n);
      if HandedOver(ws[n].queue, id) {
        assert AckSettled(ws[n].queue[id], id, ws[n].rows[k]);
      }
    }
  }

  /** A stranded run blocks its task: in every later state the next ordinal is refused. */
  lemma StrandedBlocksTask(ws: seq<World>, steps: seq<Step>, n: nat, k: nat)
    requires IsPermittedRun(ws, steps) && n < |ws| && k < |ws[n].rows|
    requires Abandoned(ws, steps, n, ws[n].rows[k].run.runId)
    ensures DecideNextRun(LatestRun(ws[n].rows, ws[n].rows[k].run.logicalId)).None?
  {
    StrandedIff(ws, steps, n, k);
    var latest := LatestRun(ws[n].rows, ws[n].rows[k].run.logicalId).value;
    var j :| 0 <= j < |ws[n].rows| && ws[n].rows[j] == latest;
    AtMostOneInFlight(ws, steps, n, k, j);
  }

  // ---- A path that settles the run ------------------------------------------------------------

  /** One more step of a run with well-behaved deliveries. */
  lemma Continue(ws: seq<World>, steps: seq<Step>, step: Step) returns (ws': seq<World>, steps': seq<Step>)
    requires IsPermittedRun(ws, steps) && Enabled(Last(ws), step) && Permitted(Last(ws), step)
    ensures IsPermittedRun(ws', steps') && ws <= ws' && steps <= steps' && Last(ws') == Next(Last(ws), step)
  {
    ws', steps' := ws + [Next(Last(ws), step)], steps + [step];
    forall i | 0 <= i < |steps'| ensures StepAt(ws', steps', i) && PermittedAt(ws', steps', i) {
      if i < |steps| {
        assert StepAt(ws, steps, i) && PermittedAt(ws, steps, i);
      }
    }
  }

  /** The run continues to a state in which row `k` is settled. */
  predicate SettledBy(ws: seq<World>, steps: seq<Step>, ws': seq<World>, steps': seq<Step>, k: nat) {
    && IsPermittedRun(ws', steps') && ws <= ws' && steps <= steps'
    && k < |Last(ws').rows| && !InFlight(Last(ws').rows[k])
  }

  lemma RejectionSettles(ws: seq<World>, steps: seq<Step>, k: nat, s: nat) returns (ws': seq<World>, steps': seq<Step>)
    requires IsPermittedRun(ws, steps) && k < |Last(ws).rows| && s in Last(ws).submitters
    requires Last(ws).submitters[s].phase.Rejecting?
    requires Last(ws).submitters[s].phase.runId == Last(ws).rows[k].run.runId
    ensures SettledBy(ws, steps, ws', steps', k)
  {
    ws', steps' := Continue(ws, steps, MarkRejected(s, 0));
  }

  /** A submitter that still holds the run can fail its hand-over. */
  lemma HolderCanSettle(ws: seq<World>, steps: seq<Step>, k: nat) returns (ws': seq<World>, steps': seq<Step>)
    requires IsPermittedRun(ws, steps) && k < |Last(ws).rows| && Held(Last(ws), Last(ws).rows[k].run.runId)
    ensures SettledBy(ws, steps, ws', steps', k)
  {
    var w := Last(ws);
    var s :| s in w.submitters && HoldsRun(w.submitters[s]) && w.submitters[s].phase.runId == w.rows[k].run.runId;
    ws', steps' := ws, steps;
    if w.submitters[s].phase.Enqueueing? {
      ws', steps' := Continue(ws, steps, Enqueue(s, false));
    }
    ws', steps' := RejectionSettles(ws', steps', k, s);
  }

  lemma {:induction false} FreshNat(s: set<nat>) returns (d: nat)
    ensures forall x | x in s :: x < d
    decreases |s|
  {
    d := 0;
    if s != {} {
      var x :| x in s;
      var rest := FreshNat(s - {x});
      d := if x < rest then rest else x + 1;
      assert forall y | y in s && y != x :: y in s - {x};
    }
  }

  /** The state of the row and the message between two deliveries. */
  predicate CanBeTaken(w: World, k: nat) {
    && k < |w.rows| && InFlight(w.rows[k]) && HandedOver(w.queue, w.rows[k].run.runId)
    && NoOverlap(w, w.rows[k].run.runId)
  }

  lemma CrashFrees(ws: seq<World>, steps: seq<Step>, k: nat) returns (ws': seq<World>, steps': seq<Step>)
    requires IsPermittedRun(ws, steps) && k < |Last(ws).rows| && InFlight(Last(ws).rows[k])
    requires HandedOver(Last(ws).queue, Last(ws).rows[k].run.runId)
    ensures IsPermittedRun(ws', steps') && ws <= ws' && steps <= steps' && CanBeTaken(Last(ws'), k)
  {
    var w := Last(ws);
    GovernedHolds(ws, steps, |steps|);
    ws', steps' := ws, steps;
    if d :| d in w.workers && Active(w.workers[d]) && w.workers[d].runId == w.rows[k].run.runId {
      ws', steps' := Continue(ws, steps, Crash(d));
    }
  }

  /** A run between deliveries can be delivered, started and recorded as a success. */
  lemma TakenCanSettle(ws: seq<World>, steps: seq<Step>, k: nat) returns (ws': seq<World>, steps': seq<Step>)
    requires IsPermittedRun(ws, steps) && CanBeTaken(Last(ws), k)
    ensures SettledBy(ws, steps, ws', steps', k)
  {
    var w, id := Last(ws), Last(ws).rows[k].run.runId;
    GovernedHolds(ws, steps, |steps|);
    var d := FreshNat(w.workers.Keys);
    OnlyRowIsNotExhausted(w, k);
    ws', steps' := Continue(ws, steps, Deliver(d, id, w.queue[id].task));
    ws', steps' := StartAttempt(ws', steps', d, k);
    ws', steps' := Continue(ws', steps', Record(d, Ok, 0));
  }

  lemma OnlyRowIsNotExhausted(w: World, k: nat)
    requires UniqueIds(w.rows) && k < |w.rows| && InFlight(w.rows[k])
    ensures NotExhausted(w, w.rows[k].run.runId)
    ensures FindRun(w.rows, w.rows[k].run.runId) == Some(w.rows[k])
  {
    var row := FindRun(w.rows, w.rows[k].run.runId).value;
    var j :| 0 <= j < |w.rows| && w.rows[j] == row;
    assert j == k;
  }

  lemma StartAttempt(ws: seq<World>, steps: seq<Step>, d: nat, k: nat) returns (ws': seq<World>, steps': seq<Step>)
    requires IsPermittedRun(ws, steps) && k < |Last(ws).rows| && InFlight(Last(ws).rows[k])
    requires d in Last(ws).workers && Submittable(Last(ws).workers[d].task)
    requires Last(ws).workers[d] == Worker(Last(ws).rows[k].run.runId, Last(ws).workers[d].task, Received)
    ensures IsPermittedRun(ws', steps') && ws <= ws' && steps <= steps'
    ensures k < |Last(ws').rows| && Last(ws').rows[k].run == Last(ws).rows[k].run
    ensures d in Last(ws').workers && Last(ws').workers[d].phase.Executing?
    ensures Last(ws').workers[d].runId == Last(ws').rows[k].run.runId
  {
    GovernedHolds(ws, steps, |steps|);
    OnlyRowIsNotExhausted(Last(ws), k);
    ws', steps' := Continue(ws, steps, Begin(d));
    ws', steps' := Continue(ws', steps', Mark(d, 0));
  }

  /** With well-behaved deliveries a run in flight can still be settled iff its submitter did not stop between
      the insert and the end of the hand-over. */
  lemma CanSettleIff(ws: seq<World>, steps: seq<Step>, k: nat)
    requires IsPermittedRun(ws, steps) && k < |Last(ws).rows| && InFlight(Last(ws).rows[k])
    ensures !Abandoned(ws, steps, |steps|, Last(ws).rows[k].run.runId) <==>
      exists ws', steps' :: SettledBy(ws, steps, ws', steps', k)
  {
    var id := Last(ws).rows[k].run.runId;
    if Abandoned(ws, steps, |steps|, id) {
      forall ws', steps' ensures !SettledBy(ws, steps, ws', steps', k) {
        NeverSettled(ws, steps, ws', steps', k);
      }
    } else {
      StrandedIff(ws, steps, |steps|, k);
      var ws', steps';
      if Held(Last(ws), id) {
        ws', steps' := HolderCanSettle(ws, steps, k);
      } else {
        ws', steps' := CrashFrees(ws, steps, k);
        ws', steps' := TakenCanSettle(ws', steps', k);
      }
      assert SettledBy(ws, steps, ws', steps', k);
    }
  }

  lemma NeverSettled(ws: seq<World>, steps: seq<Step>, ws': seq<World>, steps': seq<Step>, k: nat)
    requires IsPermittedRun(ws, steps) && k < |Last(ws).rows|
    requires Abandoned(ws, steps, |steps|, Last(ws).rows[k].run.runId)
    ensures !SettledBy(ws, steps, ws', steps', k)
  {
    if IsPermittedRun(ws', steps') && ws <= ws' && steps <= steps' {
      var i :| 0 <= i < |steps| && AbandonedAt(ws, steps, i, Last(ws).rows[k].run.runId);
      RowsPersist(ws', steps', |steps|, |steps'|);
      AbandonedIsOrphan(ws', steps', i, |steps'|, k);
    }
  }
}
