/** The invariants of the protocol that need no assumption about deliveries: every interleaving, any
    number of overlapping, repeated or forged deliveries, crashes anywhere. */
module ProtocolSafety {
  import opened Tasks
  import opened RunTable
  import opened Protocol

  lemma CheckKeepsSubmitter(rows: seq<Row>, sub: Submitter)
    requires sub.phase.Checking?
    ensures SubmitterOk(rows, AfterCheck(rows, sub))
  {
  }

  lemma ReadKeepsSubmitter(rows: seq<Row>, sub: Submitter)
    requires TableOk(rows) && sub.phase.Reading? && SubmitterOk(rows, sub)
    ensures SubmitterOk(rows, AfterRead(rows, sub))
  {
    LatestIsCount(rows, sub.logicalId);
  }

  lemma RecheckKeepsSubmitter(rows: seq<Row>, sub: Submitter)
    requires sub.phase.RecheckingRefusal? || sub.phase.RecheckingLoss?
    requires SubmitterOk(rows, sub)
    ensures SubmitterOk(rows, AfterRecheck(rows, sub))
  {
    if sub.phase.RecheckingLoss? && FindKey(rows, sub.backfill, sub.logicalId).None? {
      var k :| sub.checkLen <= k < |rows|
        && (TookOrdinal(rows, sub, k) || HasKey(rows[k].run, sub.backfill, sub.logicalId));
      assert TookOrdinal(rows, sub, k);
      assert RefusalJustified(rows, sub);
    }
  }

  /** A conflicting insert always has a competitor that committed after this submitter's reads. */
  lemma ConflictMeansLostRace(rows: seq<Row>, sub: Submitter, runId: nat)
    requires TableOk(rows) && sub.phase.Inserting? && SubmitterOk(rows, sub)
    requires InsertVerdict(rows, RunOf(sub, runId, sub.phase.next)).Conflict?
    ensures LostRace(rows, sub)
  {
    var next := sub.phase.next;
    if KeyTaken(rows, sub.backfill, sub.logicalId) {
      var k :| 0 <= k < |rows| && HasKey(rows[k].run, sub.backfill, sub.logicalId);
      assert sub.checkLen <= k;
    } else {
      var k :| 0 <= k < |rows| && rows[k].run.logicalId == sub.logicalId && rows[k].run.runNumber == next;
      if k < sub.readLen {
        OrdinalInRange(rows, k, sub.readLen);
      }
      assert TookOrdinal(rows, sub, k);
    }
  }

  lemma InsertKeepsSubmitter(rows: seq<Row>, sub: Submitter, runId: nat, now: int)
    requires TableOk(rows) && sub.phase.Inserting? && SubmitterOk(rows, sub)
    ensures var later := InsertRow(rows, RunOf(sub, runId, sub.phase.next), now);
      TableOk(later) && Extends(rows, later) && SubmitterOk(later, AfterInsert(rows, sub, runId))
  {
    var run := RunOf(sub, runId, sub.phase.next);
    match InsertVerdict(rows, run)
    case Inserted =>
      TableSurvivesInsert(rows, sub.readLen, run, now);
      assert (rows + [NewRow(run, now)])[|rows|].run == run;
    case Conflict =>
      ConflictMeansLostRace(rows, sub, runId);
    case IdCollision =>
  }

  /** Every step keeps rows in place with their identity, and keeps the table sound. */
  lemma TableStep(w: World, step: Step)
    requires Invariant(w) && Enabled(w, step)
    ensures TableOk(Next(w, step).rows) && Extends(w.rows, Next(w, step).rows)
  {
    match step
    case Insert(s, runId, now) => InsertKeepsSubmitter(w.rows, w.submitters[s], runId, now);
    case MarkRejected(s, now) => TableSurvivesWrite(w.rows, w.submitters[s].phase.runId, Reject(500), now);
    case Mark(d, now) => TableSurvivesWrite(w.rows, w.workers[d].runId, Start(w.workers[d].phase.attempt), now);
    case Record(d, result, now) =>
      var write := FinishWrite(result, w.workers[d].phase.attempt, w.maxAttempts);
      TableSurvivesWrite(w.rows, w.workers[d].runId, write, now);
    case _ =>
  }

  predicate SubmitterStep(step: Step) {
    !(step.Deliver? || step.Begin? || step.Mark? || step.Record? || step.Respond? || step.Crash?)
  }

  lemma ActingSubmitterStep(w: World, step: Step)
    requires Invariant(w) && Enabled(w, step) && SubmitterStep(step)
    ensures SubmitterOk(Next(w, step).rows, Next(w, step).submitters[step.s])
  {
    match step
    case CheckKey(s) => CheckKeepsSubmitter(w.rows, w.submitters[s]);
    case ReadLatest(s) => ReadKeepsSubmitter(w.rows, w.submitters[s]);
    case RecheckRefusal(s) => RecheckKeepsSubmitter(w.rows, w.submitters[s]);
    case RecheckLoss(s) => RecheckKeepsSubmitter(w.rows, w.submitters[s]);
    case Insert(s, runId, now) => InsertKeepsSubmitter(w.rows, w.submitters[s], runId, now);
    case _ =>
  }

  /** A step touches no submitter but its own. */
  lemma OtherSubmittersKept(w: World, step: Step)
    requires Enabled(w, step)
    ensures var w' := Next(w, step);
      forall s | s in w'.submitters && !(SubmitterStep(step) && s == step.s) ::
        s in w.submitters && w'.submitters[s] == w.submitters[s]
  {
  }

  lemma SubmittersSurvive(w: World, w': World, acting: set<nat>)
    requires SubmittersOk(w) && Extends(w.rows, w'.rows)
    requires forall s | s in w'.submitters && s !in acting :: s in w.submitters && w'.submitters[s] == w.submitters[s]
    requires forall s | s in w'.submitters && s in acting :: SubmitterOk(w'.rows, w'.submitters[s])
    ensures SubmittersOk(w')
  {
    forall s | s in w'.submitters
      ensures SubmitterOk(w'.rows, w'.submitters[s])
    {
      if s !in acting {
        SubmitterSurvives(w.rows, w'.rows, w.submitters[s]);
      }
    }
  }

  lemma SubmittersStep(w: World, step: Step)
    requires Invariant(w) && Enabled(w, step)
    ensures SubmittersOk(Next(w, step))
  {
    TableStep(w, step);
    OtherSubmittersKept(w, step);
    if SubmitterStep(step) {
      ActingSubmitterStep(w, step);
      SubmittersSurvive(w, Next(w, step), {step.s});
    } else {
      SubmittersSurvive(w, Next(w, step), {});
    }
  }

  lemma IdsStayTaken(rows: seq<Row>, later: seq<Row>, id: nat)
    requires Extends(rows, later) && IdTaken(rows, id)
    ensures IdTaken(later, id)
  {
    var k :| 0 <= k < |rows| && rows[k].run.runId == id;
    assert later[k].run.runId == id;
  }

  /** The hand-over discipline depends only on the calls and on who is about to call. */
  lemma CallsSurvive(w: World, w': World)
    requires CallsOk(w) && Extends(w.rows, w'.rows)
    requires w'.enqueueCalls == w.enqueueCalls && w'.queue.Keys == w.queue.Keys
    requires forall s | s in w'.submitters && w'.submitters[s].phase.Enqueueing? ::
      s in w.submitters && w'.submitters[s].phase == w.submitters[s].phase
    ensures CallsOk(w')
  {
    forall i | 0 <= i < |w.enqueueCalls| ensures IdTaken(w'.rows, w.enqueueCalls[i]) {
      IdsStayTaken(w.rows, w'.rows, w.enqueueCalls[i]);
    }
  }

  lemma InsertKeepsCalls(w: World, s: nat, runId: nat, now: int)
    requires Invariant(w) && Enabled(w, Insert(s, runId, now))
    ensures CallsOk(Next(w, Insert(s, runId, now)))
  {
    var w' := Next(w, Insert(s, runId, now));
    TableStep(w, Insert(s, runId, now));
    forall i | 0 <= i < |w.enqueueCalls| ensures IdTaken(w'.rows, w.enqueueCalls[i]) {
      IdsStayTaken(w.rows, w'.rows, w.enqueueCalls[i]);
    }
    forall t | t in w.submitters && w.submitters[t].phase.Enqueueing?
      ensures IdTaken(w.rows, w.submitters[t].phase.runId)
    {
      assert SubmitterOk(w.rows, w.submitters[t]);
    }
  }

  lemma EnqueueKeepsCalls(w: World, s: nat, accepted: bool)
    requires Invariant(w) && Enabled(w, Enqueue(s, accepted))
    ensures CallsOk(Next(w, Enqueue(s, accepted)))
  {
    assert SubmitterOk(w.rows, w.submitters[s]);
  }

  /** No other step calls the queue or gets ready to. */
  lemma CallsUntouched(w: World, step: Step)
    requires Enabled(w, step) && !step.Insert? && !step.Enqueue?
    ensures var w' := Next(w, step);
      && w'.enqueueCalls == w.enqueueCalls && w'.queue.Keys == w.queue.Keys
      && forall s | s in w'.submitters && w'.submitters[s].phase.Enqueueing? ::
           s in w.submitters && w'.submitters[s].phase == w.submitters[s].phase
  {
    OtherSubmittersKept(w, step);
  }

  lemma CallsStep(w: World, step: Step)
    requires Invariant(w) && Enabled(w, step)
    ensures CallsOk(Next(w, step))
  {
    if step.Insert? {
      InsertKeepsCalls(w, step.s, step.runId, step.now);
    } else if step.Enqueue? {
      EnqueueKeepsCalls(w, step.s, step.accepted);
    } else {
      OtherStepsKeepCalls(w, step);
    }
  }

  lemma OtherStepsKeepCalls(w: World, step: Step)
    requires Invariant(w) && Enabled(w, step) && !step.Insert? && !step.Enqueue?
    ensures CallsOk(Next(w, step))
  {
    TableStep(w, step);
    CallsUntouched(w, step);
    CallsSurvive(w, Next(w, step));
  }

  lemma InvariantStep(w: World, step: Step)
    requires Invariant(w) && Enabled(w, step)
    ensures Invariant(Next(w, step)) && Extends(w.rows, Next(w, step).rows)
  {
    TableStep(w, step);
    SubmittersStep(w, step);
    CallsStep(w, step);
  }

  /** Every reachable state satisfies the invariant. */
  lemma {:induction false} InvariantHolds(ws: seq<World>, steps: seq<Step>, n: nat)
    requires IsRun(ws, steps) && n < |ws|
    ensures Invariant(ws[n])
  {
    if n > 0 {
      InvariantHolds(ws, steps, n - 1);
      assert StepAt(ws, steps, n - 1);
      InvariantStep(ws[n - 1], steps[n - 1]);
    }
  }

  lemma RowsPersistOnce(ws: seq<World>, steps: seq<Step>, n: nat)
    requires IsRun(ws, steps) && n < |steps|
    ensures Extends(ws[n].rows, ws[n + 1].rows)
  {
    InvariantHolds(ws, steps, n);
    assert StepAt(ws, steps, n);
    InvariantStep(ws[n], steps[n]);
  }

  lemma ExtendsTransitive(a: seq<Row>, b: seq<Row>, c: seq<Row>)
    requires Extends(a, b) && Extends(b, c)
    ensures Extends(a, c)
  {
  }

  /** Rows never move, disappear or change identity. */
  lemma {:induction false} RowsPersist(ws: seq<World>, steps: seq<Step>, n: nat, m: nat)
    requires IsRun(ws, steps) && n <= m < |ws|
    ensures Extends(ws[n].rows, ws[m].rows)
    decreases m
  {
    if n < m {
      RowsPersist(ws, steps, n, m - 1);
      RowsPersistOnce(ws, steps, m - 1);
      ExtendsTransitive(ws[n].rows, ws[m - 1].rows, ws[m].rows);
    }
  }

  // ---- Backfill deduplication -----------------------------------------------------------------

  /** Over the whole history at most one run exists per (backfill, logical task). */
  lemma OneRunPerKey(ws: seq<World>, steps: seq<Step>, n: nat, j: nat, m: nat, k: nat)
    requires IsRun(ws, steps) && n < |ws| && m < |ws|
    requires j < |ws[n].rows| && k < |ws[m].rows|
    requires HasKey(ws[n].rows[j].run, ws[m].rows[k].run.backfillId, ws[m].rows[k].run.logicalId)
    ensures j == k && ws[n].rows[j].run == ws[m].rows[k].run
  {
    var last := if n < m then m else n;
    InvariantHolds(ws, steps, last);
    RowsPersist(ws, steps, n, last);
    RowsPersist(ws, steps, m, last);
    var rows := ws[last].rows;
    assert rows[j].run == ws[n].rows[j].run && rows[k].run == ws[m].rows[k].run;
    assert HasKey(rows[j].run, rows[k].run.backfillId, rows[k].run.logicalId);
    assert HasKey(rows[k].run, rows[j].run.backfillId, rows[j].run.logicalId);
  }

  /** ... and at most one call ever hands it to the queue. */
  lemma OneEnqueuePerKey(ws: seq<World>, steps: seq<Step>, n: nat, i: nat, j: nat, a: nat, b: nat)
    requires IsRun(ws, steps) && n < |ws|
    requires i < j < |ws[n].enqueueCalls| && a < |ws[n].rows| && b < |ws[n].rows|
    requires ws[n].rows[a].run.runId == ws[n].enqueueCalls[i]
    requires ws[n].rows[b].run.runId == ws[n].enqueueCalls[j]
    ensures !HasKey(ws[n].rows[a].run, ws[n].rows[b].run.backfillId, ws[n].rows[b].run.logicalId)
  {
    InvariantHolds(ws, steps, n);
    if HasKey(ws[n].rows[a].run, ws[n].rows[b].run.backfillId, ws[n].rows[b].run.logicalId) {
      OneRunPerKey(ws, steps, n, a, n, b);
    }
  }

  predicate AnswersWith(sub: Submitter, runId: nat, runNumber: int) {
    sub.phase == Answered(AlreadySubmitted(runId, runNumber)) || sub.phase == Answered(Enqueued(runId, runNumber))
  }

  lemma AnswerNamesItsRun(ws: seq<World>, steps: seq<Step>, n: nat, s: nat, id: nat, num: int) returns (j: nat)
    requires IsRun(ws, steps) && n < |ws| && s in ws[n].submitters
    requires AnswersWith(ws[n].submitters[s], id, num)
    ensures j < |ws[n].rows| && ws[n].rows[j].run.runId == id && ws[n].rows[j].run.runNumber == num
    ensures ws[n].rows[j].run.backfillId == ws[n].submitters[s].backfill
    ensures ws[n].rows[j].run.logicalId == ws[n].submitters[s].logicalId
  {
    InvariantHolds(ws, steps, n);
    var sub := ws[n].submitters[s];
    assert SubmitterOk(ws[n].rows, sub);
    assert Holds(ws[n].rows, sub, id, num);
    j :| 0 <= j < |ws[n].rows|
      && ws[n].rows[j].run.runId == id && ws[n].rows[j].run.runNumber == num
      && ws[n].rows[j].run.backfillId == sub.backfill && ws[n].rows[j].run.logicalId == sub.logicalId;
  }

  /** All answers ever given for one tagged key, by any submitters at any times, name the same run
      id and ordinal, whatever state that run has reached meanwhile. */
  lemma AnswersAgree(ws: seq<World>, steps: seq<Step>, n: nat, s: nat, id: nat, num: int, m: nat, t: nat, id': nat,
                     num': int)
    requires IsRun(ws, steps) && n < |ws| && m < |ws|
    requires s in ws[n].submitters && t in ws[m].submitters
    requires AnswersWith(ws[n].submitters[s], id, num) && AnswersWith(ws[m].submitters[t], id', num')
    requires ws[n].submitters[s].backfill.Some? && ws[n].submitters[s].backfill == ws[m].submitters[t].backfill
    requires ws[n].submitters[s].logicalId == ws[m].submitters[t].logicalId
    ensures id == id' && num == num'
  {
    var j := AnswerNamesItsRun(ws, steps, n, s, id, num);
    var k := AnswerNamesItsRun(ws, steps, m, t, id', num');
    OneRunPerKey(ws, steps, n, j, m, k);
  }

  // ---- Ordinals and refusals ------------------------------------------------------------------

  /** In every reachable state the ordinals of a logical task are exactly 1..n, in insertion order. */
  lemma ReachableOrdinals(ws: seq<World>, steps: seq<Step>, n: nat, logicalId: string, m: int)
    requires IsRun(ws, steps) && n < |ws|
    ensures OrdinalTaken(ws[n].rows, logicalId, m) <==> 1 <= m <= RunCount(ws[n].rows, |ws[n].rows|, logicalId)
    ensures forall j, k | 0 <= j < k < |ws[n].rows| && ws[n].rows[j].run.logicalId == ws[n].rows[k].run.logicalId ::
      ws[n].rows[j].run.runNumber < ws[n].rows[k].run.runNumber
  {
    var rows := ws[n].rows;
    InvariantHolds(ws, steps, n);
    OrdinalsAreExactlyOneToN(rows, logicalId, m);
    forall j, k | 0 <= j < k < |rows| && rows[j].run.logicalId == rows[k].run.logicalId
      ensures rows[j].run.runNumber < rows[k].run.runNumber
    {
      LaterRowsCountHigher(rows, j, k);
    }
  }

  predicate HasChecked(sub: Submitter) {
    sub.phase.Reading? || HasRead(sub)
  }

  predicate HasRead(sub: Submitter) {
    || sub.phase.RecheckingRefusal? || sub.phase.Inserting? || sub.phase.RecheckingLoss?
    || sub.phase == Answered(RefusedInFlight)
  }

  /** Step `c` was the submitter's key check and `checkLen` is the table size it saw. */
  predicate CheckedAt(ws: seq<World>, steps: seq<Step>, c: nat, s: nat, sub: Submitter)
    requires |ws| == |steps| + 1
  {
    c < |steps| && steps[c] == CheckKey(s) && |ws[c].rows| == sub.checkLen
  }

  /** Step `r` was the submitter's latest-run read and the saved read is what it returned. */
  predicate ReadAt(ws: seq<World>, steps: seq<Step>, r: nat, s: nat, sub: Submitter)
    requires |ws| == |steps| + 1
  {
    && r < |steps| && steps[r] == ReadLatest(s) && |ws[r].rows| == sub.readLen
    && sub.observed == LatestRun(ws[r].rows, sub.logicalId)
  }

  lemma {:induction false} CheckWasTaken(ws: seq<World>, steps: seq<Step>, n: nat, s: nat) returns (c: nat)
    requires IsRun(ws, steps) && n < |ws|
    requires s in ws[n].submitters && HasChecked(ws[n].submitters[s])
    ensures c < n && CheckedAt(ws, steps, c, s, ws[n].submitters[s])
  {
    var step := steps[n - 1];
    assert StepAt(ws, steps, n - 1);
    OtherSubmittersKept(ws[n - 1], step);
    if step == CheckKey(s) {
      c := n - 1;
    } else {
      c := CheckWasTaken(ws, steps, n - 1, s);
    }
  }

  lemma {:induction false} ReadWasTaken(ws: seq<World>, steps: seq<Step>, n: nat, s: nat) returns (r: nat)
    requires IsRun(ws, steps) && n < |ws|
    requires s in ws[n].submitters && HasRead(ws[n].submitters[s])
    ensures r < n && ReadAt(ws, steps, r, s, ws[n].submitters[s])
  {
    var step := steps[n - 1];
    assert StepAt(ws, steps, n - 1);
    OtherSubmittersKept(ws[n - 1], step);
    if step == ReadLatest(s) {
      r := n - 1;
    } else {
      r := ReadWasTaken(ws, steps, n - 1, s);
    }
  }

  /** An insert lost to a conflict implies a competing run committed since the submitter's own key
      check: either with its tagged key, or, since its latest-run read, with its ordinal. */
  lemma LossHasACompetitor(ws: seq<World>, steps: seq<Step>, i: nat) returns (c: nat, r: nat, k: nat)
    requires IsRun(ws, steps) && i < |steps| && steps[i].Insert? && Enabled(ws[i], steps[i])
    requires var sub := ws[i].submitters[steps[i].s];
      InsertVerdict(ws[i].rows, RunOf(sub, steps[i].runId, sub.phase.next)).Conflict?
    ensures c < i && r < i && k < |ws[i].rows|
    ensures steps[c] == CheckKey(steps[i].s) && steps[r] == ReadLatest(steps[i].s)
    ensures var sub := ws[i].submitters[steps[i].s];
      || (|ws[c].rows| <= k && HasKey(ws[i].rows[k].run, sub.backfill, sub.logicalId))
      || (|ws[r].rows| <= k && ws[i].rows[k].run.logicalId == sub.logicalId
          && ws[i].rows[k].run.runNumber == sub.phase.next)
  {
    var s := steps[i].s;
    assert StepAt(ws, steps, i);
    var sub := ws[i].submitters[s];
    InvariantHolds(ws, steps, i);
    assert SubmitterOk(ws[i].rows, sub);
    c := CheckWasTaken(ws, steps, i, s);
    r := ReadWasTaken(ws, steps, i, s);
    ConflictMeansLostRace(ws[i].rows, sub, steps[i].runId);
    k :| sub.checkLen <= k < |ws[i].rows|
      && (TookOrdinal(ws[i].rows, sub, k) || HasKey(ws[i].rows[k].run, sub.backfill, sub.logicalId));
  }

  /** A refusal implies that the latest run was in flight when read, or that a run with the next
      ordinal, and not of this tag, committed since that read. */
  lemma RefusalHasACause(ws: seq<World>, steps: seq<Step>, n: nat, s: nat) returns (r: nat)
    requires IsRun(ws, steps) && n < |ws|
    requires s in ws[n].submitters && ws[n].submitters[s].phase == Answered(RefusedInFlight)
    ensures r < n && steps[r] == ReadLatest(s)
    ensures var sub := ws[n].submitters[s]; var latest := LatestRun(ws[r].rows, sub.logicalId);
      || (latest.Some? && InFlight(latest.value))
      || exists k | |ws[r].rows| <= k < |ws[n].rows| ::
           && ws[n].rows[k].run.logicalId == sub.logicalId
           && ws[n].rows[k].run.runNumber == (if latest.Some? then latest.value.run.runNumber + 1 else 1)
           && !HasKey(ws[n].rows[k].run, sub.backfill, sub.logicalId)
  {
    var sub := ws[n].submitters[s];
    InvariantHolds(ws, steps, n);
    assert SubmitterOk(ws[n].rows, sub);
    r := ReadWasTaken(ws, steps, n, s);
    if !(sub.observed.Some? && InFlight(sub.observed.value)) {
      var k :| 0 <= k < |ws[n].rows| && TookOrdinal(ws[n].rows, sub, k)
        && !HasKey(ws[n].rows[k].run, sub.backfill, sub.logicalId);
      assert |ws[r].rows| <= k;
    }
  }

  // ---- Identity columns -----------------------------------------------------------------------

  predicate RunKeyed(run: TaskRun) {
    run.logicalId == LogicalIdOf(run.task) && Submittable(run.task)
  }

  predicate TableKeyed(rows: seq<Row>) {
    forall k | 0 <= k < |rows| :: RunKeyed(rows[k].run) && rows[k].target == TargetOf(rows[k].run.task)
  }

  predicate SubmitterKeyed(sub: Submitter) {
    sub.logicalId == LogicalIdOf(sub.task) && Submittable(sub.task)
  }

  /** Rows and submitters carry the logical id of their task, and no empty spark was submitted. */
  predicate Keyed(w: World) {
    && TableKeyed(w.rows)
    && forall s | s in w.submitters :: SubmitterKeyed(w.submitters[s])
  }

  predicate SameTask(sub: Submitter, sub': Submitter) {
    sub'.task == sub.task && sub'.logicalId == sub.logicalId
  }

  predicate RowOfSubmitter(row: Row, sub: Submitter) {
    row.run.task == sub.task && row.run.logicalId == sub.logicalId && row.target == TargetOf(sub.task)
  }

  /** Where identities come from in one step: kept, or copied from a submitter, or newly submitted. */
  predicate IdentitiesCarried(w: World, w': World) {
    && (forall s | s in w'.submitters ::
          (s in w.submitters && SameTask(w.submitters[s], w'.submitters[s])) || SubmitterKeyed(w'.submitters[s]))
    && (forall k | 0 <= k < |w'.rows| ::
          || (k < |w.rows| && w'.rows[k].run == w.rows[k].run && w'.rows[k].target == w.rows[k].target)
          || (exists s | s in w.submitters :: RowOfSubmitter(w'.rows[k], w.submitters[s])))
  }

  lemma StepCarriesIdentities(w: World, step: Step)
    requires Enabled(w, step)
    ensures IdentitiesCarried(w, Next(w, step))
  {
    var w' := Next(w, step);
    match step
    case StartSubmit(s, task, _) =>
      assert SubmitterKeyed(w'.submitters[s]);
    case Insert(s, runId, now) =>
      var sub := w.submitters[s];
      assert RowOfSubmitter(NewRow(RunOf(sub, runId, sub.phase.next), now), sub);
    case _ =>
      OtherSubmittersKept(w, step);
  }

  lemma IdentitiesCarriedAt(ws: seq<World>, steps: seq<Step>, n: nat)
    requires IsRun(ws, steps) && n < |steps|
    ensures IdentitiesCarried(ws[n], ws[n + 1])
  {
    assert StepAt(ws, steps, n);
    StepCarriesIdentities(ws[n], steps[n]);
  }

  lemma KeyedStep(w: World, w': World)
    requires Keyed(w) && IdentitiesCarried(w, w')
    ensures Keyed(w')
  {
    forall k | 0 <= k < |w'.rows|
      ensures RunKeyed(w'.rows[k].run) && w'.rows[k].target == TargetOf(w'.rows[k].run.task)
    {
      if !(k < |w.rows| && w'.rows[k].run == w.rows[k].run && w'.rows[k].target == w.rows[k].target) {
        var s :| s in w.submitters && RowOfSubmitter(w'.rows[k], w.submitters[s]);
        assert SubmitterKeyed(w.submitters[s]);
      }
    }
  }

  lemma KeyedHolds(ws: seq<World>, steps: seq<Step>, n: nat)
    requires IsRun(ws, steps) && n < |ws|
    ensures Keyed(ws[n])
  {
    assert ws[0].rows == [] && ws[0].submitters == map[];
    for i := 0 to n
      invariant Keyed(ws[i])
    {
      IdentitiesCarriedAt(ws, steps, i);
      KeyedStep(ws[i], ws[i + 1]);
    }
  }

  /** On every reachable table, matching a run's identity columns and matching its logical id are the
      same test. */
  lemma ColumnsAgreeWithLogicalId(ws: seq<World>, steps: seq<Step>, n: nat, k: nat, task: Task)
    requires IsRun(ws, steps) && n < |ws| && k < |ws[n].rows|
    ensures ws[n].rows[k].target == TargetOf(task) <==> ws[n].rows[k].run.logicalId == LogicalIdOf(task)
  {
    KeyedHolds(ws, steps, n);
    assert RunKeyed(ws[n].rows[k].run);
    ColumnsMatchKey(ws[n].rows, k, task);
  }

  lemma ColumnsMatchKey(rows: seq<Row>, k: nat, task: Task)
    requires TableKeyed(rows) && k < |rows|
    ensures rows[k].target == TargetOf(task) <==> rows[k].run.logicalId == LogicalIdOf(task)
  {
    var own := TargetOf(rows[k].run.task);
    assert RunKeyed(rows[k].run);
    if MakeLogicalId(own) == MakeLogicalId(TargetOf(task)) {
      TargetsAreNamed(rows[k].run.task);
      TargetsAreNamed(task);
      LogicalIdInjective(own, TargetOf(task));
    }
  }
}
