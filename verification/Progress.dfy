/** No submission and no delivery waits for anything: each can always go on, can stop or crash at any point, and
    ends after a fixed number of its own steps. */
module Progress {
  import opened Tasks
  import opened Protocol
  import opened ProtocolSafety
  import opened Discipline

  /** A step of this submitter. */
  predicate Submits(step: Step, s: nat) {
    SubmitterStep(step) && step.s == s
  }

  /** Own steps of a submitter among the first `n`, its start included. */
  function SubmitSteps(steps: seq<Step>, n: nat, s: nat): nat
    requires n <= |steps|
  {
    if n == 0 then 0 else SubmitSteps(steps, n - 1, s) + if Submits(steps[n - 1], s) then 1 else 0
  }

  /** How many more steps a submitter can take. */
  function SubmitRank(phase: SubmitPhase): nat {
    match phase
    case Checking => 5
    case Reading => 4
    case RecheckingRefusal => 1
    case Inserting(_) => 3
    case RecheckingLoss(_) => 1
    case Enqueueing(_, _) => 2
    case Rejecting(_, _) => 1
    case Answered(_) => 0
  }

  function SubmitLeft(w: World, s: nat): nat {
    if s in w.submitters then SubmitRank(w.submitters[s].phase) else 6
  }

  lemma SubmitLeftFalls(w: World, step: Step, s: nat)
    requires Enabled(w, step)
    ensures Submits(step, s) ==> SubmitLeft(Next(w, step), s) < SubmitLeft(w, s)
    ensures !Submits(step, s) ==> SubmitLeft(Next(w, step), s) == SubmitLeft(w, s)
  {
    if Submits(step, s) {
      OwnStepFalls(w, step);
    } else {
      OtherSubmittersKept(w, step);
    }
  }

  lemma OwnStepFalls(w: World, step: Step)
    requires Enabled(w, step) && SubmitterStep(step)
    ensures SubmitLeft(Next(w, step), step.s) < SubmitLeft(w, step.s)
  {
  }

  /** A submission can start, can go on, and can be stopped until it is answered. */
  ghost predicate SubmissionIsOpen(w: World, s: nat) {
    if s !in w.submitters then forall task, tag | Submittable(task) :: Enabled(w, StartSubmit(s, task, tag))
    else
      !w.submitters[s].phase.Answered? ==>
        Enabled(w, AbandonSubmit(s)) && forall runId, now, accepted :: CanGoOn(w, s, runId, now, accepted)
  }

  lemma SubmissionOpens(w: World, s: nat)
    ensures SubmissionIsOpen(w, s)
  {
  }

  /** In every run a submission is over after at most six steps of its own; until then it can be stopped, and it can
      go on whatever the others do: with any run id and clock, and with either answer of the queue. */
  lemma {:induction false} SubmissionsEnd(ws: seq<World>, steps: seq<Step>, n: nat, s: nat)
    requires IsRun(ws, steps) && n < |ws|
    ensures SubmitSteps(steps, n, s) + SubmitLeft(ws[n], s) <= 6
    ensures SubmissionIsOpen(ws[n], s)
  {
    if n > 0 {
      SubmissionsEnd(ws, steps, n - 1, s);
      assert StepAt(ws, steps, n - 1);
      SubmitLeftFalls(ws[n - 1], steps[n - 1], s);
    }
    SubmissionOpens(ws[n], s);
  }

  /** One of the submitter's proper steps is enabled with these inputs. */
  predicate CanGoOn(w: World, s: nat, runId: nat, now: int, accepted: bool) {
    || Enabled(w, CheckKey(s)) || Enabled(w, ReadLatest(s)) || Enabled(w, RecheckRefusal(s))
    || Enabled(w, Insert(s, runId, now)) || Enabled(w, RecheckLoss(s))
    || Enabled(w, Enqueue(s, accepted)) || Enabled(w, MarkRejected(s, now))
  }

  // ---- Deliveries -----------------------------------------------------------------------------

  predicate Works(step: Step, d: nat) {
    WorkerStep(step) && step.d == d
  }

  function WorkSteps(steps: seq<Step>, n: nat, d: nat): nat
    requires n <= |steps|
  {
    if n == 0 then 0 else WorkSteps(steps, n - 1, d) + if Works(steps[n - 1], d) then 1 else 0
  }

  function WorkRank(phase: WorkPhase): nat {
    match phase
    case Received => 4
    case Marking(_) => 3
    case Executing(_) => 2
    case Responding(_) => 1
    case Closed => 0
    case Crashed => 0
  }

  function WorkLeft(w: World, d: nat): nat {
    if d in w.workers then WorkRank(w.workers[d].phase) else 5
  }

  lemma WorkLeftFalls(w: World, step: Step, d: nat)
    requires Enabled(w, step)
    ensures Works(step, d) ==> WorkLeft(Next(w, step), d) < WorkLeft(w, d)
    ensures !Works(step, d) ==> WorkLeft(Next(w, step), d) == WorkLeft(w, d)
  {
    if Works(step, d) {
      OwnWorkFalls(w, step);
    } else {
      OtherWorkersKept(w, step);
    }
  }

  lemma OwnWorkFalls(w: World, step: Step)
    requires Enabled(w, step) && WorkerStep(step)
    ensures WorkLeft(Next(w, step), step.d) < WorkLeft(w, step.d)
  {
  }

  /** A delivery can arrive, can go on, and can crash until it is answered. */
  ghost predicate DeliveryIsOpen(w: World, d: nat) {
    if d !in w.workers then forall runId, task :: Enabled(w, Deliver(d, runId, task))
    else
      Active(w.workers[d]) ==> Enabled(w, Crash(d)) && forall now, result :: CanWorkOn(w, d, now, result)
  }

  lemma DeliveryOpens(w: World, d: nat)
    ensures DeliveryIsOpen(w, d)
  {
  }

  /** In every run a delivery is over after at most five steps of its own, its arrival included; until then it can
      crash, and it can go on whatever the others do and with whatever result. */
  lemma {:induction false} DeliveriesEnd(ws: seq<World>, steps: seq<Step>, n: nat, d: nat)
    requires IsRun(ws, steps) && n < |ws|
    ensures WorkSteps(steps, n, d) + WorkLeft(ws[n], d) <= 5
    ensures DeliveryIsOpen(ws[n], d)
  {
    if n > 0 {
      DeliveriesEnd(ws, steps, n - 1, d);
      assert StepAt(ws, steps, n - 1);
      WorkLeftFalls(ws[n - 1], steps[n - 1], d);
    }
    DeliveryOpens(ws[n], d);
  }

  predicate CanWorkOn(w: World, d: nat, now: int, result: ExecResult) {
    || Enabled(w, Begin(d)) || Enabled(w, Mark(d, now)) || Enabled(w, Record(d, result, now)) || Enabled(w, Respond(d))
  }
}
