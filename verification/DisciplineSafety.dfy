/** What every run with well-behaved deliveries guarantees: one run in flight per task, settled rows that stay,
    and columns that agree. */
module DisciplineSafety {
  import opened RunTable
  import opened Protocol
  import opened Discipline

  /** The strengthened invariant holds in every reachable state. */
  lemma {:induction false} GovernedHolds(ws: seq<World>, steps: seq<Step>, n: nat)
    requires IsPermittedRun(ws, steps) && n < |ws|
    ensures Governed(ws[n])
  {
    if n > 0 {
      GovernedHolds(ws, steps, n - 1);
      TasksAreSubmittable(ws, steps, n - 1);
      assert StepAt(ws, steps, n - 1) && PermittedAt(ws, steps, n - 1);
      GovernedStep(ws[n - 1], steps[n - 1]);
    }
  }

  // ---- What permitted runs guarantee ----------------------------------------------------------

  /** A logical task never has two runs in flight, and the one in flight is its highest-numbered. */
  lemma AtMostOneInFlight(ws: seq<World>, steps: seq<Step>, n: nat, j: nat, k: nat)
    requires IsPermittedRun(ws, steps) && n < |ws|
    requires j < |ws[n].rows| && k < |ws[n].rows|
    requires ws[n].rows[j].run.logicalId == ws[n].rows[k].run.logicalId && InFlight(ws[n].rows[j])
    ensures InFlight(ws[n].rows[k]) ==> j == k
    ensures j != k ==> ws[n].rows[k].run.runNumber < ws[n].rows[j].run.runNumber
  {
    GovernedHolds(ws, steps, n);
    if k < j {
      LaterRowsCountHigher(ws[n].rows, k, j);
    }
  }

  lemma SettledOnce(ws: seq<World>, steps: seq<Step>, n: nat, k: nat)
    requires IsPermittedRun(ws, steps) && n < |steps|
    requires k < |ws[n].rows| && !InFlight(ws[n].rows[k])
    ensures k < |ws[n + 1].rows| && ws[n + 1].rows[k] == ws[n].rows[k]
  {
    GovernedHolds(ws, steps, n);
    assert StepAt(ws, steps, n);
    SettledStays(ws[n], steps[n], k);
  }

  /** A settled run is never written again: `CompleteSuccess`, `CompleteFailure` and
      `SubmissionFailed` are absorbing, row and all. */
  lemma {:induction false} SettledForever(ws: seq<World>, steps: seq<Step>, n: nat, m: nat, k: nat)
    requires IsPermittedRun(ws, steps) && n <= m < |ws|
    requires k < |ws[n].rows| && !InFlight(ws[n].rows[k])
    ensures k < |ws[m].rows| && ws[m].rows[k] == ws[n].rows[k]
    decreases m
  {
    if n < m {
      SettledForever(ws, steps, n, m - 1, k);
      SettledOnce(ws, steps, m - 1, k);
    }
  }

  /** Once a run has a successor it is settled, in that state and in every later one. */
  lemma SupersededForever(ws: seq<World>, steps: seq<Step>, n: nat, m: nat, j: nat, k: nat)
    requires IsPermittedRun(ws, steps) && n <= m < |ws|
    requires j < |ws[n].rows| && k < |ws[n].rows|
    requires ws[n].rows[j].run.logicalId == ws[n].rows[k].run.logicalId
    requires ws[n].rows[j].run.runNumber < ws[n].rows[k].run.runNumber
    ensures j < |ws[m].rows| && !InFlight(ws[m].rows[j]) && ws[m].rows[j] == ws[n].rows[j]
  {
    GovernedHolds(ws, steps, n);
    if k < j {
      LaterRowsCountHigher(ws[n].rows, k, j);
    }
    SettledForever(ws, steps, n, m, j);
  }

  /** Attempts begun on a run during the first `n` steps. */
  function AttemptsBegun(ws: seq<World>, steps: seq<Step>, n: nat, runId: nat): nat
    requires |ws| == |steps| + 1 && n <= |steps|
  {
    if n == 0 then 0
    else
      var step := steps[n - 1];
      AttemptsBegun(ws, steps, n - 1, runId)
      + if step.Mark? && step.d in ws[n - 1].workers && ws[n - 1].workers[step.d].runId == runId then 1 else 0
  }

  lemma BegunStep(w: World, step: Step, runId: nat)
    requires Governed(w) && Enabled(w, step)
    ensures BegunOf(Next(w, step).queue, runId)
      == BegunOf(w.queue, runId) + if step.Mark? && w.workers[step.d].runId == runId then 1 else 0
  {
    if step.Enqueue? {
      assert w.submitters[step.s].phase.runId !in w.enqueueCalls;
    } else {
      QueueEffect(w, step);
      if step.Mark? {
        assert WorkerOk(w, w.workers[step.d]);
      }
    }
  }

  lemma {:induction false} BegunCountsAttempts(ws: seq<World>, steps: seq<Step>, n: nat, runId: nat)
    requires IsPermittedRun(ws, steps) && n < |ws|
    ensures BegunOf(ws[n].queue, runId) == AttemptsBegun(ws, steps, n, runId)
  {
    if n > 0 {
      BegunCountsAttempts(ws, steps, n - 1, runId);
      GovernedHolds(ws, steps, n - 1);
      assert StepAt(ws, steps, n - 1);
      BegunStep(ws[n - 1], steps[n - 1], runId);
    }
  }

  /** In every reachable row status and columns agree, and `attempts` is the number of attempts begun
      on that very run. */
  lemma RowsStayConsistent(ws: seq<World>, steps: seq<Step>, n: nat, k: nat)
    requires IsPermittedRun(ws, steps) && n < |ws| && k < |ws[n].rows|
    ensures Consistent(ws[n].rows[k], ws[n].maxAttempts)
    ensures ws[n].rows[k].attempts == AttemptsBegun(ws, steps, n, ws[n].rows[k].run.runId)
  {
    GovernedHolds(ws, steps, n);
    assert RowOk(ws[n], ws[n].rows[k]);
    BegunCountsAttempts(ws, steps, n, ws[n].rows[k].run.runId);
  }

  predicate PlainAnswer(phase: WorkPhase) {
    phase.Responding? ==> phase.code == 204 || phase.code == 200 || phase.code == 500
  }

  lemma AnswersStayPlain(w: World, step: Step)
    requires WorkersOk(w) && Enabled(w, step)
    requires forall d | d in w.workers :: PlainAnswer(w.workers[d].phase)
    ensures forall d | d in Next(w, step).workers :: PlainAnswer(Next(w, step).workers[d].phase)
  {
    OtherWorkersKept(w, step);
    if step.Begin? {
      assert WorkerOk(w, w.workers[step.d]);
    }
  }

  /** Workers only ever answer 204, 200 or 500: the spark route's early 400 is unreachable. */
  lemma {:induction false} NoBadRequest(ws: seq<World>, steps: seq<Step>, n: nat)
    requires IsPermittedRun(ws, steps) && n < |ws|
    ensures forall d | d in ws[n].workers :: PlainAnswer(ws[n].workers[d].phase)
  {
    if n > 0 {
      NoBadRequest(ws, steps, n - 1);
      GovernedHolds(ws, steps, n - 1);
      assert StepAt(ws, steps, n - 1);
      AnswersStayPlain(ws[n - 1], steps[n - 1]);
    }
  }
}
