/** The redelivery loop: when acknowledgements are not lost either, a run is delivered at most
    `maxAttempts` times plus once per crashed delivery. */
module Redelivery {
  import opened Options
  import opened Statuses
  import opened RunTable
  import opened Protocol
  import opened ProtocolSafety
  import opened Discipline
  import opened DisciplineSafety

  /** An acknowledged message is gone. */
  predicate ReliableAt(ws: seq<World>, steps: seq<Step>, i: nat)
    requires |ws| == |steps| + 1 && i < |steps|
  {
    Reliable(ws[i], steps[i])
  }

  predicate Reliable(w: World, step: Step) {
    step.Deliver? && step.runId in w.queue ==> w.queue[step.runId].acked == 0
  }

  predicate IsReliableRun(ws: seq<World>, steps: seq<Step>) {
    IsPermittedRun(ws, steps) && forall i | 0 <= i < |steps| :: ReliableAt(ws, steps, i)
  }

  /** A delivery is open exactly while its worker is active. */
  ghost predicate OpenOk(w: World) {
    forall id, d: nat | id in w.queue ::
      d in w.queue[id].open <==> (d in w.workers && Active(w.workers[d]) && w.workers[d].runId == id)
  }

  /** Every delivery ended in a retry answer, an acknowledgement or a crash, or is still open. */
  predicate Accounted(m: Message) {
    && m.deliveries == m.retried + m.crashed + m.acked + |m.open|
    && m.acked + |m.open| <= 1
  }

  /** Retry answers given or about to be given. */
  predicate RetriesBounded(m: Message, phase: WorkPhase, row: Row, maxAttempts: int) {
    match phase
    case Executing(attempt) => m.retried < row.attempts
    case Responding(code) => !IsSuccessCode(code) ==> m.retried < row.attempts && m.retried + 1 < maxAttempts
    case _ => true
  }

  predicate MessageOk(w: World, id: nat)
    requires id in w.queue
  {
    && Accounted(w.queue[id]) && w.queue[id].retried < w.maxAttempts
    && (forall k | 0 <= k < |w.rows| && w.rows[k].run.runId == id :: w.queue[id].retried <= w.rows[k].attempts)
    && (forall k, d | 0 <= k < |w.rows| && w.rows[k].run.runId == id && d in w.queue[id].open && d in w.workers ::
          RetriesBounded(w.queue[id], w.workers[d].phase, w.rows[k], w.maxAttempts))
  }

  ghost predicate Bounded(w: World) {
    OpenOk(w) && forall id | id in w.queue :: MessageOk(w, id)
  }

  // ---- Preservation ---------------------------------------------------------------------------

  lemma OpenAfterEnqueue(w: World, step: Step)
    requires OpenOk(w) && CallsOk(w) && WorkersOk(w) && Enabled(w, step) && step.Enqueue?
    ensures OpenOk(Next(w, step))
  {
    var id := w.submitters[step.s].phase.runId;
    assert id !in w.queue;
    forall d | d in w.workers && Active(w.workers[d]) ensures w.workers[d].runId != id {
      assert WorkerOk(w, w.workers[d]);
    }
  }

  lemma OpenAfterDelivery(w: World, step: Step)
    requires OpenOk(w) && Enabled(w, step) && step.Deliver?
    ensures OpenOk(Next(w, step))
  {
  }

  lemma OpenAfterEnd(w: World, step: Step)
    requires OpenOk(w) && Enabled(w, step) && (step.Respond? || step.Crash?)
    ensures OpenOk(Next(w, step))
  {
  }

  lemma OpenAfterProgress(w: World, step: Step)
    requires OpenOk(w) && Enabled(w, step) && (step.Begin? || step.Mark? || step.Record?)
    ensures OpenOk(Next(w, step))
  {
  }

  lemma OpenStep(w: World, step: Step)
    requires OpenOk(w) && CallsOk(w) && WorkersOk(w) && Enabled(w, step) && Permitted(w, step)
    ensures OpenOk(Next(w, step))
  {
    if step.Enqueue? {
      OpenAfterEnqueue(w, step);
    } else if step.Deliver? {
      OpenAfterDelivery(w, step);
    } else if step.Respond? || step.Crash? {
      OpenAfterEnd(w, step);
    } else if WorkerStep(step) {
      OpenAfterProgress(w, step);
    } else {
      assert Next(w, step).queue == w.queue && Next(w, step).workers == w.workers;
    }
  }

  /** The run whose message, row or worker a step concerns. */
  function Concerned(w: World, step: Step): Option<nat>
    requires Enabled(w, step)
  {
    match step
    case Enqueue(s, _) => Some(w.submitters[s].phase.runId)
    case MarkRejected(s, _) => Some(w.submitters[s].phase.runId)
    case Deliver(_, runId, _) => Some(runId)
    case Insert(_, runId, _) => if IdTaken(w.rows, runId) then None else Some(runId)
    case Begin(d) => Some(w.workers[d].runId)
    case Mark(d, _) => Some(w.workers[d].runId)
    case Record(d, _, _) => Some(w.workers[d].runId)
    case Respond(d) => Some(w.workers[d].runId)
    case Crash(d) => Some(w.workers[d].runId)
    case _ => None
  }

  lemma UnconcernedKept(w: World, step: Step, id: nat)
    requires Enabled(w, step) && id in w.queue && Concerned(w, step) != Some(id)
    ensures var w' := Next(w, step);
      && id in w'.queue && w'.queue[id] == w.queue[id]
      && (forall d | d in w.workers && w.workers[d].runId == id :: d in w'.workers && w'.workers[d] == w.workers[d])
      && (forall k | 0 <= k < |w'.rows| && w'.rows[k].run.runId == id :: k < |w.rows| && w'.rows[k] == w.rows[k])
      && w'.maxAttempts == w.maxAttempts
  {
    TableEffect(w, step);
  }

  lemma UnconcernedMessage(w: World, w': World, id: nat)
    requires OpenOk(w) && id in w.queue && MessageOk(w, id)
    requires id in w'.queue && w'.queue[id] == w.queue[id] && w'.maxAttempts == w.maxAttempts
    requires forall d | d in w.workers && w.workers[d].runId == id :: d in w'.workers && w'.workers[d] == w.workers[d]
    requires forall k | 0 <= k < |w'.rows| && w'.rows[k].run.runId == id :: k < |w.rows| && w'.rows[k] == w.rows[k]
    ensures MessageOk(w', id)
  {
  }

  lemma HandOverMessage(w: World, step: Step)
    requires Governed(w) && Enabled(w, step) && step.Enqueue?
    ensures var id := w.submitters[step.s].phase.runId;
      id in Next(w, step).queue && MessageOk(Next(w, step), id)
  {
    var id := w.submitters[step.s].phase.runId;
    forall k | 0 <= k < |w.rows| && w.rows[k].run.runId == id ensures w.rows[k].attempts >= 0 {
      assert RowOk(w, w.rows[k]);
    }
  }

  lemma RejectMessage(w: World, step: Step)
    requires RowsOk(w) && WorkersOk(w) && HoldersOk(w) && Bounded(w) && Enabled(w, step) && step.MarkRejected?
    ensures var id := w.submitters[step.s].phase.runId;
      id in Next(w, step).queue && MessageOk(Next(w, step), id)
  {
    var sub := w.submitters[step.s];
    var id := sub.phase.runId;
    assert HolderOk(w, sub) && MessageOk(w, id);
    forall k | 0 <= k < |w.rows| && w.rows[k].run.runId == id ensures w.rows[k].attempts == 0 {
      assert RowOk(w, w.rows[k]);
    }
    OpenMeansAccepted(w, id);
  }

  lemma OpenMeansAccepted(w: World, id: nat)
    requires WorkersOk(w) && OpenOk(w) && id in w.queue
    ensures w.queue[id].open != {} ==> w.queue[id].accepted
  {
    if d :| d in w.queue[id].open {
      assert WorkerOk(w, w.workers[d]);
    }
  }

  lemma DeliverMessage(w: World, step: Step)
    requires Bounded(w) && Enabled(w, step) && Permitted(w, step) && Reliable(w, step) && step.Deliver?
    ensures step.runId in Next(w, step).queue && MessageOk(Next(w, step), step.runId)
  {
    var id := step.runId;
    assert MessageOk(w, id);
    NothingOpen(w, id);
    assert w.queue[id].open + {step.d} == {step.d};
  }

  /** Under E1 the acting delivery is the only open one of its run. */
  lemma OnlyOpen(w: World, d: nat)
    requires WorkersOk(w) && Bounded(w) && d in w.workers && Active(w.workers[d])
    ensures w.workers[d].runId in w.queue && w.queue[w.workers[d].runId].open == {d}
  {
    assert WorkerOk(w, w.workers[d]);
    var id := w.workers[d].runId;
    assert d in w.queue[id].open;
    forall e | e in w.queue[id].open ensures e == d {
      assert e in w.workers && Active(w.workers[e]) && w.workers[e].runId == id;
    }
    assert w.queue[id].open == {d};
  }

  lemma BeginMessage(w: World, step: Step)
    requires WorkersOk(w) && Bounded(w) && Enabled(w, step) && step.Begin?
    ensures var id := w.workers[step.d].runId;
      id in Next(w, step).queue && MessageOk(Next(w, step), id)
  {
    assert WorkerOk(w, w.workers[step.d]);
    OnlyOpen(w, step.d);
    assert MessageOk(w, w.workers[step.d].runId);
  }

  lemma MarkMessage(w: World, step: Step)
    requires WorkersOk(w) && Bounded(w) && Enabled(w, step) && step.Mark?
    ensures var id := w.workers[step.d].runId;
      id in Next(w, step).queue && MessageOk(Next(w, step), id)
  {
    assert WorkerOk(w, w.workers[step.d]);
    OnlyOpen(w, step.d);
    assert MessageOk(w, w.workers[step.d].runId);
  }

  lemma RecordMessage(w: World, step: Step)
    requires WorkersOk(w) && Bounded(w) && Enabled(w, step) && step.Record?
    ensures var id := w.workers[step.d].runId;
      id in Next(w, step).queue && MessageOk(Next(w, step), id)
  {
    assert WorkerOk(w, w.workers[step.d]);
    OnlyOpen(w, step.d);
    assert MessageOk(w, w.workers[step.d].runId);
  }

  lemma EndMessage(w: World, step: Step)
    requires CallsOk(w) && WorkersOk(w) && Bounded(w) && Enabled(w, step) && (step.Respond? || step.Crash?)
    ensures var id := w.workers[step.d].runId;
      id in Next(w, step).queue && MessageOk(Next(w, step), id)
  {
    OnlyOpen(w, step.d);
    var id := w.workers[step.d].runId;
    assert MessageOk(w, id);
    assert w.queue[id].open - {step.d} == {};
    var k := CalledRow(w, id);
    assert RetriesBounded(w.queue[id], w.workers[step.d].phase, w.rows[k], w.maxAttempts);
    EndedMessage(w, step, k);
  }

  lemma CalledRow(w: World, id: nat) returns (k: nat)
    requires CallsOk(w) && id in w.queue
    ensures k < |w.rows| && w.rows[k].run.runId == id
  {
    var i :| 0 <= i < |w.enqueueCalls| && w.enqueueCalls[i] == id;
    k :| 0 <= k < |w.rows| && w.rows[k].run.runId == w.enqueueCalls[i];
  }

  lemma EndedMessage(w: World, step: Step, k: nat)
    requires Enabled(w, step) && (step.Respond? || step.Crash?) && w.workers[step.d].runId in w.queue
    requires k < |w.rows| && w.rows[k].run.runId == w.workers[step.d].runId
    requires MessageOk(w, w.workers[step.d].runId) && w.queue[w.workers[step.d].runId].open == {step.d}
    requires RetriesBounded(w.queue[w.workers[step.d].runId], w.workers[step.d].phase, w.rows[k], w.maxAttempts)
    ensures w.workers[step.d].runId in Next(w, step).queue
    ensures MessageOk(Next(w, step), w.workers[step.d].runId)
  {
    assert {step.d} - {step.d} == {};
    assert |{step.d}| == 1;
  }

  lemma ConcernedMessage(w: World, step: Step, id: nat)
    requires Governed(w) && Bounded(w) && Enabled(w, step) && Permitted(w, step) && Reliable(w, step)
    requires Concerned(w, step) == Some(id) && id in Next(w, step).queue
    ensures MessageOk(Next(w, step), id)
  {
    if WorkerStep(step) {
      WorkerMessage(w, step, id);
    } else if step.Enqueue? {
      HandOverMessage(w, step);
    } else if step.MarkRejected? {
      RejectMessage(w, step);
    } else {
      InsertedUnknown(w, step);
    }
  }

  lemma InsertedUnknown(w: World, step: Step)
    requires Invariant(w) && Enabled(w, step) && step.Insert?
    ensures Concerned(w, step).Some? ==> Concerned(w, step).value !in Next(w, step).queue
  {
    QueuedIdsTaken(w, step.runId);
  }

  lemma WorkerMessage(w: World, step: Step, id: nat)
    requires Governed(w) && Bounded(w) && Enabled(w, step) && Permitted(w, step) && Reliable(w, step)
    requires WorkerStep(step) && Concerned(w, step) == Some(id) && id in Next(w, step).queue
    ensures MessageOk(Next(w, step), id)
  {
    if step.Deliver? {
      DeliverMessage(w, step);
    } else if step.Begin? {
      BeginMessage(w, step);
    } else if step.Mark? {
      MarkMessage(w, step);
    } else if step.Record? {
      RecordMessage(w, step);
    } else {
      EndMessage(w, step);
    }
  }

  lemma QueueGrowsByCall(w: World, step: Step, id: nat)
    requires Enabled(w, step) && id in Next(w, step).queue && id !in w.queue
    ensures Concerned(w, step) == Some(id)
  {
  }

  lemma BoundedStep(w: World, step: Step)
    requires Governed(w) && Bounded(w) && Enabled(w, step) && Permitted(w, step) && Reliable(w, step)
    ensures Bounded(Next(w, step))
  {
    var w' := Next(w, step);
    OpenStep(w, step);
    forall id | id in w'.queue ensures MessageOk(w', id) {
      if id !in w.queue {
        QueueGrowsByCall(w, step, id);
      }
      if Concerned(w, step) == Some(id) {
        ConcernedMessage(w, step, id);
      } else {
        UnconcernedKept(w, step, id);
        UnconcernedMessage(w, w', id);
      }
    }
  }

  lemma {:induction false} BoundedHolds(ws: seq<World>, steps: seq<Step>, n: nat)
    requires IsReliableRun(ws, steps) && n < |ws|
    ensures Bounded(ws[n])
  {
    if n > 0 {
      BoundedHolds(ws, steps, n - 1);
      GovernedHolds(ws, steps, n - 1);
      assert StepAt(ws, steps, n - 1) && PermittedAt(ws, steps, n - 1) && ReliableAt(ws, steps, n - 1);
      BoundedStep(ws[n - 1], steps[n - 1]);
    }
  }

  // ---- The bound ------------------------------------------------------------------------------

  /** Deliveries of a run among the first `n` steps. */
  function DeliveriesOf(steps: seq<Step>, n: nat, id: nat): nat
    requires n <= |steps|
  {
    if n == 0 then 0
    else DeliveriesOf(steps, n - 1, id) + if steps[n - 1].Deliver? && steps[n - 1].runId == id then 1 else 0
  }

  /** Deliveries of a run that crashed among the first `n` steps. */
  function CrashesOf(ws: seq<World>, steps: seq<Step>, n: nat, id: nat): nat
    requires |ws| == |steps| + 1 && n <= |steps|
  {
    if n == 0 then 0
    else
      var step := steps[n - 1];
      CrashesOf(ws, steps, n - 1, id)
      + if step.Crash? && step.d in ws[n - 1].workers && ws[n - 1].workers[step.d].runId == id then 1 else 0
  }

  function DeliveredOf(queue: map<nat, Message>, id: nat): nat {
    if id in queue then queue[id].deliveries else 0
  }

  function CrashedOf(queue: map<nat, Message>, id: nat): nat {
    if id in queue then queue[id].crashed else 0
  }

  lemma CountersMove(w: World, step: Step, id: nat)
    requires CallsOk(w) && WorkersOk(w) && Enabled(w, step) && Permitted(w, step)
    ensures DeliveredOf(Next(w, step).queue, id)
      == DeliveredOf(w.queue, id) + if step.Deliver? && step.runId == id then 1 else 0
    ensures CrashedOf(Next(w, step).queue, id)
      == CrashedOf(w.queue, id) + if step.Crash? && w.workers[step.d].runId == id then 1 else 0
  {
    if step.Enqueue? {
      assert w.submitters[step.s].phase.runId !in w.enqueueCalls;
    } else if step.Crash? {
      assert WorkerOk(w, w.workers[step.d]);
    } else if !step.Deliver? {
      CountersStay(w, step, id);
    }
  }

  lemma CountersStay(w: World, step: Step, id: nat)
    requires Enabled(w, step) && !step.Enqueue? && !step.Crash? && !step.Deliver?
    ensures DeliveredOf(Next(w, step).queue, id) == DeliveredOf(w.queue, id)
    ensures CrashedOf(Next(w, step).queue, id) == CrashedOf(w.queue, id)
  {
  }

  lemma {:induction false} CountersCountSteps(ws: seq<World>, steps: seq<Step>, n: nat, id: nat)
    requires IsPermittedRun(ws, steps) && n < |ws|
    ensures DeliveredOf(ws[n].queue, id) == DeliveriesOf(steps, n, id)
    ensures CrashedOf(ws[n].queue, id) == CrashesOf(ws, steps, n, id)
  {
    if n > 0 {
      CountersCountSteps(ws, steps, n - 1, id);
      GovernedHolds(ws, steps, n - 1);
      assert StepAt(ws, steps, n - 1) && PermittedAt(ws, steps, n - 1);
      CountersMove(ws[n - 1], steps[n - 1], id);
    }
  }

  /** A run with c crashed deliveries is delivered at most maxAttempts + c times; once that many
      deliveries are over the message has been acknowledged. */
  lemma RedeliveryEnds(ws: seq<World>, steps: seq<Step>, n: nat, id: nat)
    requires IsReliableRun(ws, steps) && n < |ws|
    ensures DeliveriesOf(steps, n, id) <= ws[n].maxAttempts + CrashesOf(ws, steps, n, id)
    ensures DeliveriesOf(steps, n, id) == ws[n].maxAttempts + CrashesOf(ws, steps, n, id) && NoOverlap(ws[n], id) ==>
      id in ws[n].queue && ws[n].queue[id].acked == 1
  {
    BoundedHolds(ws, steps, n);
    InvariantHolds(ws, steps, n);
    CountersCountSteps(ws, steps, n, id);
    if id in ws[n].queue {
      assert MessageOk(ws[n], id);
      if NoOverlap(ws[n], id) {
        NothingOpen(ws[n], id);
      }
    }
  }

  lemma NothingOpen(w: World, id: nat)
    requires OpenOk(w) && id in w.queue && NoOverlap(w, id)
    ensures w.queue[id].open == {}
  {
    OpenMeansOverlap(w, id);
  }

  lemma OpenMeansOverlap(w: World, id: nat)
    requires OpenOk(w) && id in w.queue
    ensures w.queue[id].open != {} ==> !NoOverlap(w, id)
  {
    if e :| e in w.queue[id].open {
      assert e in w.workers && Active(w.workers[e]) && w.workers[e].runId == id;
    }
  }

  /** Every delivery that starts is within the bound, so none starts once it is reached. */
  lemma DeliveriesStartWithinBound(ws: seq<World>, steps: seq<Step>, i: nat)
    requires IsReliableRun(ws, steps) && i < |steps| && steps[i].Deliver?
    ensures DeliveriesOf(steps, i, steps[i].runId) < ws[i].maxAttempts + CrashesOf(ws, steps, i, steps[i].runId)
  {
    var id := steps[i].runId;
    assert PermittedAt(ws, steps, i) && ReliableAt(ws, steps, i);
    RedeliveryEnds(ws, steps, i, id);
  }

  /** The queue sees a 2xx exactly for a terminal outcome, and the only other outcome an attempt can
      record leaves retry budget. */
  lemma AcknowledgedIffTerminal(result: ExecResult, attempt: int, maxAttempts: int)
    ensures var status := WrittenStatus(FinishWrite(result, attempt, maxAttempts));
      && (IsSuccessCode(HttpStatusFor(status)) <==> !IsInFlight(status))
      && (!IsSuccessCode(HttpStatusFor(status)) ==> status.ErrorWillRetry? && attempt < maxAttempts)
  {
  }
}
