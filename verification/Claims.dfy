/** Where runs and answers come from, over whole runs of the protocol: every row has the insert that made
    it, and every answer other than an enqueued run has a cause in the history. */
module Claims {
  import opened Options
  import opened RunTable
  import opened Protocol
  import opened ProtocolSafety
  import opened Discipline
  import opened DisciplineSafety

  // ---- Inserts --------------------------------------------------------------------------------

  /** Step `i` is an insert the table accepted. */
  predicate AcceptedAt(ws: seq<World>, steps: seq<Step>, i: nat)
    requires |ws| == |steps| + 1 && i < |steps|
  {
    && steps[i].Insert? && Enabled(ws[i], steps[i])
    && InsertVerdict(ws[i].rows, InsertedRun(ws, steps, i)).Inserted?
  }

  function InsertedRun(ws: seq<World>, steps: seq<Step>, i: nat): TaskRun
    requires |ws| == |steps| + 1 && i < |steps| && steps[i].Insert? && Enabled(ws[i], steps[i])
  {
    RunToInsert(ws[i], steps[i])
  }

  lemma GrowthIsAnInsert(w: World, step: Step)
    requires Enabled(w, step) && |Next(w, step).rows| > |w.rows|
    ensures step.Insert? && InsertVerdict(w.rows, RunToInsert(w, step)).Inserted?
    ensures Next(w, step).rows == w.rows + [NewRow(RunToInsert(w, step), step.now)]
  {
    TableEffect(w, step);
  }

  /** A row that appears between two states was inserted by a step between them. */
  lemma {:induction false} RowHasItsInsert(ws: seq<World>, steps: seq<Step>, a: nat, n: nat, k: nat) returns (i: nat)
    requires IsRun(ws, steps) && a <= n < |ws| && |ws[a].rows| <= k < |ws[n].rows|
    ensures a <= i < n && AcceptedAt(ws, steps, i) && |ws[i].rows| == k
    ensures InsertedRun(ws, steps, i) == ws[n].rows[k].run
    decreases n
  {
    assert StepAt(ws, steps, n - 1);
    if k < |ws[n - 1].rows| {
      i := RowHasItsInsert(ws, steps, a, n - 1, k);
      RowsPersistOnce(ws, steps, n - 1);
    } else {
      i := n - 1;
      GrowthIsAnInsert(ws[i], steps[i]);
    }
  }

  /** A key that becomes taken was claimed by an insert in between. */
  lemma KeyHasItsClaim(ws: seq<World>, steps: seq<Step>, a: nat, n: nat, backfill: Option<string>, logicalId: string)
    returns (i: nat)
    requires IsRun(ws, steps) && a <= n < |ws|
    requires !KeyTaken(ws[a].rows, backfill, logicalId) && KeyTaken(ws[n].rows, backfill, logicalId)
    ensures a <= i < n && AcceptedAt(ws, steps, i) && HasKey(InsertedRun(ws, steps, i), backfill, logicalId)
  {
    var k :| 0 <= k < |ws[n].rows| && HasKey(ws[n].rows[k].run, backfill, logicalId);
    RowsPersist(ws, steps, a, n);
    OldKeyWasTaken(ws[a].rows, ws[n].rows, k, backfill, logicalId);
    i := RowHasItsInsert(ws, steps, a, n, k);
  }

  lemma OldKeyWasTaken(rows: seq<Row>, later: seq<Row>, k: nat, backfill: Option<string>, logicalId: string)
    requires Extends(rows, later) && k < |later| && HasKey(later[k].run, backfill, logicalId)
    ensures k < |rows| ==> KeyTaken(rows, backfill, logicalId)
  {
    if k < |rows| {
      assert HasKey(rows[k].run, backfill, logicalId);
    }
  }

  lemma TakenKeysStay(ws: seq<World>, steps: seq<Step>, a: nat, n: nat, backfill: Option<string>, logicalId: string)
    requires IsRun(ws, steps) && a <= n < |ws| && KeyTaken(ws[a].rows, backfill, logicalId)
    ensures KeyTaken(ws[n].rows, backfill, logicalId)
  {
    var k :| 0 <= k < |ws[a].rows| && HasKey(ws[a].rows[k].run, backfill, logicalId);
    RowsPersist(ws, steps, a, n);
    assert HasKey(ws[n].rows[k].run, backfill, logicalId);
  }

  // ---- Submitters over time -------------------------------------------------------------------

  predicate SameRequest(sub: Submitter, sub': Submitter) {
    sub'.task == sub.task && sub'.backfill == sub.backfill && sub'.logicalId == sub.logicalId
  }

  /** Phases of a submitter whose insert was accepted; it never leaves them. */
  predicate PastInsert(phase: SubmitPhase) {
    || phase.Enqueueing? || phase.Rejecting?
    || (phase.Answered? && (phase.outcome.Enqueued? || phase.outcome.Errored?))
  }

  lemma RequestsStayOnce(w: World, step: Step, s: nat)
    requires Enabled(w, step) && s in w.submitters
    ensures s in Next(w, step).submitters && SameRequest(w.submitters[s], Next(w, step).submitters[s])
    ensures PastInsert(w.submitters[s].phase) ==> PastInsert(Next(w, step).submitters[s].phase)
  {
  }

  /** A submitter keeps its request, and once past its insert it stays there. */
  lemma RequestsStay(ws: seq<World>, steps: seq<Step>, a: nat, n: nat, s: nat)
    requires IsRun(ws, steps) && a <= n < |ws| && s in ws[a].submitters
    ensures s in ws[n].submitters && SameRequest(ws[a].submitters[s], ws[n].submitters[s])
    ensures PastInsert(ws[a].submitters[s].phase) ==> PastInsert(ws[n].submitters[s].phase)
  {
    for m := a to n
      invariant s in ws[m].submitters && SameRequest(ws[a].submitters[s], ws[m].submitters[s])
      invariant PastInsert(ws[a].submitters[s].phase) ==> PastInsert(ws[m].submitters[s].phase)
    {
      assert StepAt(ws, steps, m);
      RequestsStayOnce(ws[m], steps[m], s);
    }
  }

  /** A submitter whose insert was accepted never answers that its key was already taken, nor a refusal. */
  lemma InserterIsPast(ws: seq<World>, steps: seq<Step>, i: nat, n: nat)
    requires IsRun(ws, steps) && i < n < |ws| && AcceptedAt(ws, steps, i)
    ensures steps[i].s in ws[n].submitters && PastInsert(ws[n].submitters[steps[i].s].phase)
    ensures SameRequest(ws[i].submitters[steps[i].s], ws[n].submitters[steps[i].s])
  {
    assert StepAt(ws, steps, i);
    RequestsStay(ws, steps, i + 1, n, steps[i].s);
  }

  predicate HoldsOwn(phase: SubmitPhase, runId: nat) {
    match phase
    case Enqueueing(id, _) => id == runId
    case Rejecting(id, _) => id == runId
    case Answered(Enqueued(id, _)) => id == runId
    case _ => false
  }

  /** A submitter that answers with an enqueued run inserted that run itself. */
  lemma {:induction false} OwnRunHasItsInsert(ws: seq<World>, steps: seq<Step>, n: nat, s: nat, runId: nat)
    returns (i: nat)
    requires IsRun(ws, steps) && n < |ws| && s in ws[n].submitters && HoldsOwn(ws[n].submitters[s].phase, runId)
    ensures i < n && AcceptedAt(ws, steps, i) && steps[i].s == s && steps[i].runId == runId
  {
    i := n - 1;
    assert StepAt(ws, steps, i);
    OtherSubmittersKept(ws[i], steps[i]);
    if !(steps[i].Insert? && steps[i].s == s) {
      i := OwnRunHasItsInsert(ws, steps, n - 1, s, runId);
    }
  }

  // ---- Causes ---------------------------------------------------------------------------------

  /** Step `i` is an accepted insert of the same tagged key by another submitter than `s`. */
  predicate RivalAt(ws: seq<World>, steps: seq<Step>, i: nat, s: nat, sub: Submitter)
    requires |ws| == |steps| + 1 && i < |steps|
  {
    AcceptedAt(ws, steps, i) && steps[i].s != s && HasKey(InsertedRun(ws, steps, i), sub.backfill, sub.logicalId)
  }

  /** Whoever is told that its key was already submitted, although the key was free in an earlier state,
      has a rival that claimed it in between. */
  lemma AlreadyHasARival(ws: seq<World>, steps: seq<Step>, a: nat, n: nat, s: nat) returns (i: nat)
    requires IsRun(ws, steps) && a <= n < |ws| && s in ws[n].submitters
    requires ws[n].submitters[s].phase.Answered? && ws[n].submitters[s].phase.outcome.AlreadySubmitted?
    requires !KeyTaken(ws[a].rows, ws[n].submitters[s].backfill, ws[n].submitters[s].logicalId)
    ensures a <= i < n && RivalAt(ws, steps, i, s, ws[n].submitters[s])
  {
    var sub := ws[n].submitters[s];
    InvariantHolds(ws, steps, n);
    assert SubmitterOk(ws[n].rows, sub);
    HeldKeyIsTaken(ws[n].rows, sub, sub.phase.outcome.runId, sub.phase.outcome.runNumber);
    i := KeyHasItsClaim(ws, steps, a, n, sub.backfill, sub.logicalId);
    InserterIsPast(ws, steps, i, n);
  }

  lemma HeldKeyIsTaken(rows: seq<Row>, sub: Submitter, runId: nat, runNumber: int)
    requires Holds(rows, sub, runId, runNumber) && sub.backfill.Some?
    ensures KeyTaken(rows, sub.backfill, sub.logicalId)
  {
    var k :| 0 <= k < |rows|
      && rows[k].run.runId == runId && rows[k].run.runNumber == runNumber
      && rows[k].run.backfillId == sub.backfill && rows[k].run.logicalId == sub.logicalId;
    assert HasKey(rows[k].run, sub.backfill, sub.logicalId);
  }

  /** Step `i` inserts with a run id that is already in the table. */
  predicate CollidesAt(ws: seq<World>, steps: seq<Step>, i: nat, s: nat)
    requires |ws| == |steps| + 1 && i < |steps|
  {
    steps[i].Insert? && steps[i].s == s && IdTaken(ws[i].rows, steps[i].runId)
  }

  /** Step `i` is an accepted insert of the same logical task, not under this tag, by another submitter, after
      this submission's read and before its insert. */
  predicate ForeignAt(ws: seq<World>, steps: seq<Step>, i: nat, s: nat, sub: Submitter)
    requires |ws| == |steps| + 1 && i < |steps|
  {
    && s in ws[i].submitters && ws[i].submitters[s].phase.Inserting?
    && AcceptedAt(ws, steps, i) && steps[i].s != s
    && InsertedRun(ws, steps, i).logicalId == sub.logicalId
    && !HasKey(InsertedRun(ws, steps, i), sub.backfill, sub.logicalId)
  }

  predicate ReadsInFlightAt(ws: seq<World>, steps: seq<Step>, i: nat, s: nat, logicalId: string)
    requires |ws| == |steps| + 1 && i < |steps|
  {
    steps[i] == ReadLatest(s) && DecideNextRun(LatestRun(ws[i].rows, logicalId)).None?
  }

  /** The submission has not started or has not inserted its run in state `i`. */
  predicate Undecided(ws: seq<World>, i: nat, s: nat)
    requires i < |ws|
  {
    s in ws[i].submitters ==> !PastInsert(ws[i].submitters[s].phase)
  }

  /** The events that can keep a submission from ending with its run in the table, all before its own insert: it
      stops, its run id is taken, its read finds a run in flight, or another run of the task is inserted between
      its read and its insert. */
  predicate HinderedAt(ws: seq<World>, steps: seq<Step>, i: nat, s: nat, sub: Submitter)
    requires |ws| == |steps| + 1 && i < |steps|
  {
    && Undecided(ws, i, s)
    && (|| steps[i] == AbandonSubmit(s) || CollidesAt(ws, steps, i, s)
        || ReadsInFlightAt(ws, steps, i, s, sub.logicalId) || ForeignAt(ws, steps, i, s, sub))
  }

  /** No step from state `a` up to state `n` hinders the submission `s` of state `n`. */
  predicate Unhindered(ws: seq<World>, steps: seq<Step>, a: nat, n: nat, s: nat)
    requires |ws| == |steps| + 1 && a <= n < |ws| && s in ws[n].submitters
  {
    forall i | a <= i < n :: !HinderedAt(ws, steps, i, s, ws[n].submitters[s])
  }

  /** The table holds a run of this task under this tag. */
  predicate Present(rows: seq<Row>, sub: Submitter) {
    exists k | 0 <= k < |rows| :: rows[k].run.backfillId == sub.backfill && rows[k].run.logicalId == sub.logicalId
  }

  lemma HeldIsPresent(rows: seq<Row>, sub: Submitter, runId: nat, runNumber: int)
    requires Holds(rows, sub, runId, runNumber)
    ensures Present(rows, sub)
  {
  }

  lemma PresentStays(rows: seq<Row>, later: seq<Row>, sub: Submitter, sub': Submitter)
    requires Present(rows, sub) && Extends(rows, later) && SameRequest(sub, sub')
    ensures Present(later, sub')
  {
    var k :| 0 <= k < |rows| && rows[k].run.backfillId == sub.backfill && rows[k].run.logicalId == sub.logicalId;
    assert later[k].run == rows[k].run;
  }

  /** A submission that errs was stopped before its insert, met a taken run id, or has its run in the table. */
  lemma {:induction false} ErrorHasACause(ws: seq<World>, steps: seq<Step>, n: nat, s: nat) returns (i: nat)
    requires IsRun(ws, steps) && n < |ws| && s in ws[n].submitters
    requires ws[n].submitters[s].phase == Answered(Errored)
    ensures i < n && s in ws[i].submitters
    ensures || (Undecided(ws, i, s) && (steps[i] == AbandonSubmit(s) || CollidesAt(ws, steps, i, s)))
            || Present(ws[n].rows, ws[n].submitters[s])
  {
    i := n - 1;
    var w, step := ws[i], steps[i];
    assert StepAt(ws, steps, i);
    InvariantHolds(ws, steps, i);
    OtherSubmittersKept(w, step);
    if SubmitterStep(step) && step.s == s {
      RejectedIsPresent(w, step);
    } else {
      i := ErrorHasACause(ws, steps, n - 1, s);
      if Present(w.rows, w.submitters[s]) {
        RowsPersistOnce(ws, steps, n - 1);
        PresentStays(w.rows, ws[n].rows, w.submitters[s], ws[n].submitters[s]);
      }
    }
  }

  lemma RejectedIsPresent(w: World, step: Step)
    requires Invariant(w) && Enabled(w, step) && SubmitterStep(step)
    requires Next(w, step).submitters[step.s].phase == Answered(Errored)
    ensures step.s in w.submitters
    ensures || (!PastInsert(w.submitters[step.s].phase)
                && (step.AbandonSubmit? || (step.Insert? && IdTaken(w.rows, step.runId))))
            || Present(Next(w, step).rows, Next(w, step).submitters[step.s])
  {
    if step.MarkRejected? || (step.AbandonSubmit? && HoldsRun(w.submitters[step.s])) {
      var sub := w.submitters[step.s];
      assert SubmitterOk(w.rows, sub);
      HeldIsPresent(w.rows, sub, sub.phase.runId, sub.phase.next);
      InvariantStep(w, step);
      PresentStays(w.rows, Next(w, step).rows, sub, Next(w, step).submitters[step.s]);
    }
  }

  /** A step of a submitter that did not exist in state `a` comes at or after `a`. */
  lemma ActsAfterStart(ws: seq<World>, steps: seq<Step>, a: nat, i: nat, s: nat)
    requires IsRun(ws, steps) && a < |ws| && i < |ws| && s in ws[i].submitters
    ensures s !in ws[a].submitters ==> a <= i
  {
    if i < a {
      RequestsStay(ws, steps, i, a, s);
    }
  }

  /** A submission past its latest-run read never comes back to it. */
  predicate PastRead(phase: SubmitPhase) {
    !phase.Checking? && !phase.Reading?
  }

  lemma PastReadStays(ws: seq<World>, steps: seq<Step>, a: nat, n: nat, s: nat)
    requires IsRun(ws, steps) && a <= n < |ws| && s in ws[a].submitters && PastRead(ws[a].submitters[s].phase)
    ensures s in ws[n].submitters && PastRead(ws[n].submitters[s].phase)
  {
    for m := a to n
      invariant s in ws[m].submitters && PastRead(ws[m].submitters[s].phase)
    {
      assert StepAt(ws, steps, m);
      RequestsStayOnce(ws[m], steps[m], s);
    }
  }

  /** Between its read and its insert a submission waits in the same phase. */
  lemma {:induction false} WaitsToInsert(ws: seq<World>, steps: seq<Step>, r: nat, i: nat, c: nat, s: nat)
    requires IsRun(ws, steps) && r < i <= c < |ws| && steps[r] == ReadLatest(s)
    requires s in ws[c].submitters && ws[c].submitters[s].phase.Inserting?
    ensures s in ws[i].submitters && ws[i].submitters[s].phase.Inserting?
    decreases c
  {
    if i < c {
      assert StepAt(ws, steps, r) && StepAt(ws, steps, c - 1);
      PastReadStays(ws, steps, r + 1, c - 1, s);
      OtherSubmittersKept(ws[c - 1], steps[c - 1]);
      WaitsToInsert(ws, steps, r, i, c - 1, s);
    }
  }

  /** The read that found a run in flight, or the insert that lost. */
  predicate RefusedBy(ws: seq<World>, steps: seq<Step>, c: nat, s: nat, logicalId: string)
    requires |ws| == |steps| + 1 && c < |steps|
  {
    || ReadsInFlightAt(ws, steps, c, s, logicalId)
    || (steps[c].Insert? && steps[c].s == s && Enabled(ws[c], steps[c])
        && InsertVerdict(ws[c].rows, InsertedRun(ws, steps, c)).Conflict?)
  }

  predicate BeingRefused(phase: SubmitPhase) {
    phase.RecheckingRefusal? || phase.RecheckingLoss? || phase == Answered(RefusedInFlight)
  }

  lemma {:induction false} RefusalHasASource(ws: seq<World>, steps: seq<Step>, n: nat, s: nat) returns (c: nat)
    requires IsRun(ws, steps) && n < |ws| && s in ws[n].submitters && BeingRefused(ws[n].submitters[s].phase)
    ensures c < n && s in ws[c].submitters && RefusedBy(ws, steps, c, s, ws[n].submitters[s].logicalId)
    ensures c + 1 < |ws| && s in ws[c + 1].submitters && BeingRefused(ws[c + 1].submitters[s].phase)
  {
    c := n - 1;
    assert StepAt(ws, steps, c);
    OtherSubmittersKept(ws[c], steps[c]);
    if !(steps[c] == ReadLatest(s) || (steps[c].Insert? && steps[c].s == s)) {
      c := RefusalHasASource(ws, steps, n - 1, s);
    }
  }

  /** A submission that lost while its key was taken is never refused: the re-check finds the key. */
  lemma LostKeyIsNotRefused(ws: seq<World>, steps: seq<Step>, c: nat, n: nat, s: nat)
    requires IsRun(ws, steps) && c <= n < |ws| && s in ws[c].submitters && ws[c].submitters[s].phase.RecheckingLoss?
    requires KeyTaken(ws[c].rows, ws[c].submitters[s].backfill, ws[c].submitters[s].logicalId)
    ensures s in ws[n].submitters && ws[n].submitters[s].phase != Answered(RefusedInFlight)
  {
    var sub := ws[c].submitters[s];
    for m := c to n
      invariant s in ws[m].submitters && SameRequest(sub, ws[m].submitters[s])
      invariant ws[m].submitters[s].phase.RecheckingLoss? || NotRefused(ws[m].submitters[s].phase)
    {
      assert StepAt(ws, steps, m);
      TakenKeysStay(ws, steps, c, m, sub.backfill, sub.logicalId);
      LostKeyStep(ws[m], steps[m], s);
    }
  }

  predicate NotRefused(phase: SubmitPhase) {
    phase.Answered? && !phase.outcome.RefusedInFlight?
  }

  lemma LostKeyStep(w: World, step: Step, s: nat)
    requires Enabled(w, step) && s in w.submitters
    requires w.submitters[s].phase.RecheckingLoss? || NotRefused(w.submitters[s].phase)
    requires KeyTaken(w.rows, w.submitters[s].backfill, w.submitters[s].logicalId)
    ensures s in Next(w, step).submitters && SameRequest(w.submitters[s], Next(w, step).submitters[s])
    ensures Next(w, step).submitters[s].phase.RecheckingLoss? || NotRefused(Next(w, step).submitters[s].phase)
  {
    RequestsStayOnce(w, step, s);
    OtherSubmittersKept(w, step);
  }

  /** An insert that lost and led to a refusal lost to another submitter's run of the task, under another tag,
      inserted between this submission's own read and insert. */
  lemma LossIsForeign(ws: seq<World>, steps: seq<Step>, c: nat, n: nat, s: nat) returns (i: nat)
    requires IsRun(ws, steps) && c < n < |ws| && s in ws[n].submitters
    requires ws[n].submitters[s].phase == Answered(RefusedInFlight)
    requires steps[c].Insert? && steps[c].s == s && Enabled(ws[c], steps[c])
    requires InsertVerdict(ws[c].rows, InsertedRun(ws, steps, c)).Conflict?
    ensures i < c && ForeignAt(ws, steps, i, s, ws[n].submitters[s])
  {
    assert StepAt(ws, steps, c);
    RequestsStay(ws, steps, c, n, s);
    var sub := ws[c].submitters[s];
    var q, r, k := LossHasACompetitor(ws, steps, c);
    if KeyTaken(ws[c].rows, sub.backfill, sub.logicalId) {
      TakenKeysStay(ws, steps, c, c + 1, sub.backfill, sub.logicalId);
      LostKeyIsNotRefused(ws, steps, c + 1, n, s);
    }
    assert !HasKey(ws[c].rows[k].run, sub.backfill, sub.logicalId);
    i := RowHasItsInsert(ws, steps, r, c, k);
    assert StepAt(ws, steps, r);
    WaitsToInsert(ws, steps, r, i, c, s);
    InserterIsPast(ws, steps, i, c);
  }

  /** A refusal is given only by a re-check that finds the key free: while its key is taken no submission is
      refused, whichever read or insert sent it to the re-check. */
  lemma {:induction false} RefusalIsRechecked(ws: seq<World>, steps: seq<Step>, n: nat, s: nat) returns (i: nat)
    requires IsRun(ws, steps) && n < |ws| && s in ws[n].submitters
    requires ws[n].submitters[s].phase == Answered(RefusedInFlight)
    ensures i < n && (steps[i] == RecheckRefusal(s) || steps[i] == RecheckLoss(s))
    ensures !KeyTaken(ws[i].rows, ws[n].submitters[s].backfill, ws[n].submitters[s].logicalId)
  {
    i := n - 1;
    assert StepAt(ws, steps, i);
    OtherSubmittersKept(ws[i], steps[i]);
    if s in ws[i].submitters && ws[i].submitters[s].phase == Answered(RefusedInFlight) {
      RequestsStay(ws, steps, i, n, s);
      i := RefusalIsRechecked(ws, steps, i, s);
    }
  }

  /** A refused submission read a run in flight, or another run of the task was inserted between its read and
      its insert. */
  lemma RefusalIsHindered(ws: seq<World>, steps: seq<Step>, a: nat, n: nat, s: nat) returns (i: nat)
    requires IsRun(ws, steps) && a <= n < |ws| && s in ws[n].submitters && s !in ws[a].submitters
    requires ws[n].submitters[s].phase == Answered(RefusedInFlight)
    ensures a <= i < n && HinderedAt(ws, steps, i, s, ws[n].submitters[s])
    ensures ReadsInFlightAt(ws, steps, i, s, ws[n].submitters[s].logicalId)
      || ForeignAt(ws, steps, i, s, ws[n].submitters[s])
  {
    i := RefusalHasASource(ws, steps, n, s);
    if !ReadsInFlightAt(ws, steps, i, s, ws[n].submitters[s].logicalId) {
      i := LossIsForeign(ws, steps, i, n, s);
    }
    ActsAfterStart(ws, steps, a, i, s);
    RequestsStay(ws, steps, i, n, s);
  }

  /** A submission that starts after state `a` and is answered by state `n` with nothing hindering it in
      between ends with a run of its task under its tag in the table, rejected enqueues included. */
  lemma UnhinderedIsPresent(ws: seq<World>, steps: seq<Step>, a: nat, n: nat, s: nat)
    requires IsRun(ws, steps) && a <= n < |ws| && s in ws[n].submitters && s !in ws[a].submitters
    requires ws[n].submitters[s].phase.Answered? && Unhindered(ws, steps, a, n, s)
    ensures Present(ws[n].rows, ws[n].submitters[s])
  {
    var sub := ws[n].submitters[s];
    InvariantHolds(ws, steps, n);
    assert SubmitterOk(ws[n].rows, sub);
    match sub.phase.outcome
    case Enqueued(id, num) => HeldIsPresent(ws[n].rows, sub, id, num);
    case AlreadySubmitted(id, num) => HeldIsPresent(ws[n].rows, sub, id, num);
    case RefusedInFlight =>
      var i := RefusalIsHindered(ws, steps, a, n, s);
    case Errored =>
      var i := ErrorIsHindered(ws, steps, a, n, s);
  }

  lemma ErrorIsHindered(ws: seq<World>, steps: seq<Step>, a: nat, n: nat, s: nat) returns (i: nat)
    requires IsRun(ws, steps) && a <= n < |ws| && s in ws[n].submitters && s !in ws[a].submitters
    requires ws[n].submitters[s].phase == Answered(Errored)
    ensures Present(ws[n].rows, ws[n].submitters[s])
      || (a <= i < n && HinderedAt(ws, steps, i, s, ws[n].submitters[s]))
  {
    i := ErrorHasACause(ws, steps, n, s);
    ActsAfterStart(ws, steps, a, i, s);
  }

  // ---- When the environment behaves -----------------------------------------------------------

  /** Nobody is running work for this logical task. */
  predicate Idle(rows: seq<Row>, logicalId: string) {
    forall k | 0 <= k < |rows| && rows[k].run.logicalId == logicalId :: !InFlight(rows[k])
  }

  /** Until its insert nothing but the submission itself happens to its task: it is not stopped, its run id is
      fresh, and no other submitter inserts a run of the task. */
  predicate UndisturbedAt(ws: seq<World>, steps: seq<Step>, i: nat, s: nat, sub: Submitter)
    requires |ws| == |steps| + 1 && i < |steps|
  {
    Undecided(ws, i, s) ==>
      && steps[i] != AbandonSubmit(s) && !CollidesAt(ws, steps, i, s)
      && (AcceptedAt(ws, steps, i) && InsertedRun(ws, steps, i).logicalId == sub.logicalId ==> steps[i].s == s)
  }

  /** Under E1-E3 a task that is idle in state `a` is still idle when the submission reads it. */
  lemma IdleAtRead(ws: seq<World>, steps: seq<Step>, a: nat, r: nat, s: nat, sub: Submitter)
    requires IsPermittedRun(ws, steps) && a <= r < |steps| && steps[r] == ReadLatest(s)
    requires Idle(ws[a].rows, sub.logicalId)
    requires forall i | a <= i < r :: UndisturbedAt(ws, steps, i, s, sub)
    ensures Idle(ws[r].rows, sub.logicalId)
  {
    assert StepAt(ws, steps, r);
    forall k | 0 <= k < |ws[r].rows| && ws[r].rows[k].run.logicalId == sub.logicalId ensures !InFlight(ws[r].rows[k]) {
      if k < |ws[a].rows| {
        RowsPersist(ws, steps, a, r);
        SettledForever(ws, steps, a, r, k);
      } else {
        var i := RowHasItsInsert(ws, steps, a, r, k);
        assert UndisturbedAt(ws, steps, i, s, sub);
        if s in ws[i].submitters {
          RequestsStay(ws, steps, i, r, s);
        }
        InserterIsPast(ws, steps, i, r);
      }
    }
  }

  /** So under E1-E3 it is enough that the task is idle when the submission may begin and that nothing
      else happens to it. */
  lemma QuietIsUnhindered(ws: seq<World>, steps: seq<Step>, a: nat, n: nat, s: nat)
    requires IsPermittedRun(ws, steps) && a <= n < |ws| && s in ws[n].submitters
    requires Idle(ws[a].rows, ws[n].submitters[s].logicalId)
    requires forall i | a <= i < n :: UndisturbedAt(ws, steps, i, s, ws[n].submitters[s])
    ensures Unhindered(ws, steps, a, n, s)
  {
    var sub := ws[n].submitters[s];
    forall i | a <= i < n ensures !HinderedAt(ws, steps, i, s, sub) {
      assert UndisturbedAt(ws, steps, i, s, sub);
      if steps[i] == ReadLatest(s) {
        IdleAtRead(ws, steps, a, i, s, sub);
        IdleHasANext(ws[i].rows, sub.logicalId);
      }
    }
  }

  lemma IdleHasANext(rows: seq<Row>, logicalId: string)
    requires Idle(rows, logicalId)
    ensures DecideNextRun(LatestRun(rows, logicalId)).Some?
  {
  }
}
