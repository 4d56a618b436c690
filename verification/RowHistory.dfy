/** What a row of `task_runs` says about the past: every lifecycle column of every reachable row is determined by
    the steps that touched it. */
module RowHistory {
  import opened Options
  import opened Statuses
  import opened RunTable
  import opened Protocol
  import opened ProtocolSafety
  import opened Discipline

  /** The four ways in which a step touches a row. */
  datatype Touch =
    | Created
    | Rejected
    | Started(attempt: int)
    | Ended(attempt: int, result: ExecResult)

  datatype Kind = Anything | Creation | Starting | Success | Failure | Erring

  predicate OfKind(touch: Touch, kind: Kind) {
    match kind
    case Anything => true
    case Creation => touch.Created?
    case Starting => touch.Started?
    case Success => touch.Ended? && touch.result.Ok?
    case Failure => touch.Ended? && touch.result.Err?
    case Erring => touch.Rejected? || (touch.Ended? && touch.result.Err?)
  }

  /** How step `i` touched row `k`, if it did. */
  function TouchOf(ws: seq<World>, steps: seq<Step>, i: nat, k: nat): Option<Touch>
    requires |ws| == |steps| + 1 && i < |steps| && Enabled(ws[i], steps[i])
  {
    var w := ws[i];
    if k >= |ws[i + 1].rows| then None
    else
      var id := ws[i + 1].rows[k].run.runId;
      match steps[i]
      case Insert(_, _, _) => if k == |w.rows| then Some(Created) else None
      case MarkRejected(s, _) => if w.submitters[s].phase.runId == id then Some(Rejected) else None
      case Mark(d, _) => if w.workers[d].runId == id then Some(Started(w.workers[d].phase.attempt)) else None
      case Record(d, result, _) =>
        if w.workers[d].runId == id then Some(Ended(w.workers[d].phase.attempt, result)) else None
      case _ => None
  }

  /** Step `i` touched row `k` in a way of this kind. */
  predicate TouchedAt(ws: seq<World>, steps: seq<Step>, i: nat, k: nat, kind: Kind)
    requires |ws| == |steps| + 1 && i < |steps|
  {
    Enabled(ws[i], steps[i]) && TouchOf(ws, steps, i, k).Some? && OfKind(TouchOf(ws, steps, i, k).value, kind)
  }

  /** The last of the first `n` steps that touched the row in a way of this kind. */
  function LastTouch(ws: seq<World>, steps: seq<Step>, n: nat, k: nat, kind: Kind): (r: Option<nat>)
    requires |ws| == |steps| + 1 && n <= |steps|
    ensures r.Some? ==> r.value < n && TouchedAt(ws, steps, r.value, k, kind)
    ensures r.Some? ==> forall i | r.value < i < n :: !TouchedAt(ws, steps, i, k, kind)
    ensures r.None? ==> forall i | 0 <= i < n :: !TouchedAt(ws, steps, i, k, kind)
  {
    if n == 0 then None
    else if TouchedAt(ws, steps, n - 1, k, kind) then Some(n - 1)
    else LastTouch(ws, steps, n - 1, k, kind)
  }

  // ---- What the columns say -------------------------------------------------------------------

  /** Status and attempts are those of the last touch. */
  predicate StatusAfter(touch: Touch, row: Row, maxAttempts: int) {
    match touch
    case Created => HasStatus(row, Queued) && row.attempts == 0
    case Rejected => HasStatus(row, SubmissionFailed) && row.attempts == 0
    case Started(attempt) => HasStatus(row, InProgress) && row.attempts == attempt
    case Ended(attempt, result) =>
      && row.attempts == attempt && FromI32(row.statusCode).Some?
      && OutcomeIs(FromI32(row.statusCode).value, result, attempt, maxAttempts)
  }

  /** The error an erring touch leaves: 500 for a rejected enqueue, else the inner status of the attempt. */
  function ErrorOf(touch: Touch): Option<int> {
    match touch
    case Rejected => Some(500)
    case Ended(_, Err(_, inner)) => Some(inner)
    case _ => None
  }

  function TimeOf(step: Step): int {
    match step
    case Insert(_, _, now) => now
    case MarkRejected(_, now) => now
    case Mark(_, now) => now
    case Record(_, _, now) => now
    case _ => 0
  }

  /** When the last touch of a kind happened. */
  function LastTime(ws: seq<World>, steps: seq<Step>, n: nat, k: nat, kind: Kind): Option<int>
    requires |ws| == |steps| + 1 && n <= |steps|
  {
    match LastTouch(ws, steps, n, k, kind) case Some(i) => Some(TimeOf(steps[i])) case None => None
  }

  /** How long the last attempt that ended in this way took, from the last start before it. */
  function Duration(ws: seq<World>, steps: seq<Step>, n: nat, k: nat, kind: Kind): Option<int>
    requires |ws| == |steps| + 1 && n <= |steps|
  {
    match LastTouch(ws, steps, n, k, kind)
    case None => None
    case Some(i) =>
      match LastTime(ws, steps, i, k, Starting)
      case Some(began) => Some(TimeOf(steps[i]) - began)
      case None => None
  }

  function LastError(ws: seq<World>, steps: seq<Step>, n: nat, k: nat): Option<int>
    requires |ws| == |steps| + 1 && n <= |steps|
  {
    match LastTouch(ws, steps, n, k, Erring)
    case Some(i) => ErrorOf(TouchOf(ws, steps, i, k).value)
    case None => None
  }

  /** Row `k` of state `n` is what the steps before it made it. */
  predicate TellsHistory(ws: seq<World>, steps: seq<Step>, n: nat, k: nat)
    requires |ws| == |steps| + 1 && n < |ws| && k < |ws[n].rows|
  {
    StatusTold(ws, steps, n, k) && TimesTold(ws, steps, n, k) && EndsTold(ws, steps, n, k)
  }

  predicate StatusTold(ws: seq<World>, steps: seq<Step>, n: nat, k: nat)
    requires |ws| == |steps| + 1 && n < |ws| && k < |ws[n].rows|
  {
    match LastTouch(ws, steps, n, k, Anything)
    case Some(i) => StatusAfter(TouchOf(ws, steps, i, k).value, ws[n].rows[k], ws[n].maxAttempts)
    case None => false
  }

  predicate TimesTold(ws: seq<World>, steps: seq<Step>, n: nat, k: nat)
    requires |ws| == |steps| + 1 && n < |ws| && k < |ws[n].rows|
  {
    var row := ws[n].rows[k];
    && Some(row.updatedAt) == LastTime(ws, steps, n, k, Anything)
    && Some(row.createdAt) == LastTime(ws, steps, n, k, Creation)
    && row.startedAt == LastTime(ws, steps, n, k, Starting)
  }

  predicate EndsTold(ws: seq<World>, steps: seq<Step>, n: nat, k: nat)
    requires |ws| == |steps| + 1 && n < |ws| && k < |ws[n].rows|
  {
    var row := ws[n].rows[k];
    && row.successMs == Duration(ws, steps, n, k, Success)
    && row.errorMs == Duration(ws, steps, n, k, Failure)
    && row.errorCode == LastError(ws, steps, n, k)
  }

  // ---- One step -------------------------------------------------------------------------------

  lemma OutcomeOfRecord(result: ExecResult, attempt: int, maxAttempts: int)
    ensures OutcomeIs(WrittenStatus(FinishWrite(result, attempt, maxAttempts)), result, attempt, maxAttempts)
  {
  }

  /** A step that does not touch the row leaves it and its history as they were. */
  lemma Untouched(ws: seq<World>, steps: seq<Step>, i: nat, k: nat)
    requires IsRun(ws, steps) && i < |steps| && k < |ws[i + 1].rows|
    requires Enabled(ws[i], steps[i]) && TouchOf(ws, steps, i, k).None?
    ensures k < |ws[i].rows| && ws[i + 1].rows[k] == ws[i].rows[k] && ws[i + 1].maxAttempts == ws[i].maxAttempts
    ensures forall kind :: LastTouch(ws, steps, i + 1, k, kind) == LastTouch(ws, steps, i, k, kind)
  {
    assert StepAt(ws, steps, i);
    TableEffect(ws[i], steps[i]);
  }

  /** A new row has no earlier history. */
  lemma NothingBefore(ws: seq<World>, steps: seq<Step>, n: nat, k: nat, kind: Kind)
    requires IsRun(ws, steps) && n < |ws| && k >= |ws[n].rows|
    ensures LastTouch(ws, steps, n, k, kind).None?
  {
    var r := LastTouch(ws, steps, n, k, kind);
    if r.Some? {
      RowsPersist(ws, steps, r.value + 1, n);
    }
  }

  lemma CreatedTells(ws: seq<World>, steps: seq<Step>, i: nat, k: nat)
    requires IsRun(ws, steps) && i < |steps| && k < |ws[i + 1].rows|
    requires Enabled(ws[i], steps[i]) && TouchOf(ws, steps, i, k) == Some(Created)
    ensures TellsHistory(ws, steps, i + 1, k)
  {
    assert StepAt(ws, steps, i);
    TableEffect(ws[i], steps[i]);
    NothingBefore(ws, steps, i, k, Starting);
    NothingBefore(ws, steps, i, k, Success);
    NothingBefore(ws, steps, i, k, Failure);
    NothingBefore(ws, steps, i, k, Erring);
  }

  /** A touched row was there before, and the touch is one of the status writes. */
  lemma WrittenRow(ws: seq<World>, steps: seq<Step>, i: nat, k: nat)
    requires |ws| == |steps| + 1 && i < |steps| && StepAt(ws, steps, i) && k < |ws[i + 1].rows|
    requires TouchOf(ws, steps, i, k).Some? && !TouchOf(ws, steps, i, k).value.Created?
    ensures k < |ws[i].rows| && WriteOf(ws[i], steps[i]).Some?
    ensures ws[i + 1].rows[k] == Apply(ws[i].rows[k], WriteOf(ws[i], steps[i]).value.1, TimeOf(steps[i]))
  {
    TableEffect(ws[i], steps[i]);
  }

  lemma WrittenStatusTold(ws: seq<World>, steps: seq<Step>, i: nat, k: nat)
    requires |ws| == |steps| + 1 && i < |steps| && StepAt(ws, steps, i) && k < |ws[i + 1].rows|
    requires TouchOf(ws, steps, i, k).Some? && !TouchOf(ws, steps, i, k).value.Created?
    ensures StatusTold(ws, steps, i + 1, k)
  {
    WrittenRow(ws, steps, i, k);
    if steps[i].Record? {
      OutcomeOfRecord(steps[i].result, ws[i].workers[steps[i].d].phase.attempt, ws[i].maxAttempts);
    }
  }

  lemma TouchIsLast(ws: seq<World>, steps: seq<Step>, i: nat, k: nat, kind: Kind)
    requires |ws| == |steps| + 1 && i < |steps| && Enabled(ws[i], steps[i]) && TouchOf(ws, steps, i, k).Some?
    ensures LastTouch(ws, steps, i + 1, k, kind)
      == if OfKind(TouchOf(ws, steps, i, k).value, kind) then Some(i) else LastTouch(ws, steps, i, k, kind)
  {
  }

  lemma WrittenTimesTold(ws: seq<World>, steps: seq<Step>, i: nat, k: nat)
    requires |ws| == |steps| + 1 && i < |steps| && StepAt(ws, steps, i) && k < |ws[i + 1].rows|
    requires TouchOf(ws, steps, i, k).Some? && !TouchOf(ws, steps, i, k).value.Created?
    requires k < |ws[i].rows| && TimesTold(ws, steps, i, k)
    ensures TimesTold(ws, steps, i + 1, k)
  {
    WrittenRow(ws, steps, i, k);
    TouchIsLast(ws, steps, i, k, Anything);
    TouchIsLast(ws, steps, i, k, Creation);
    TouchIsLast(ws, steps, i, k, Starting);
  }

  /** A touch that ends an attempt dates its duration from the row's start time. */
  lemma TouchDuration(ws: seq<World>, steps: seq<Step>, i: nat, k: nat, kind: Kind)
    requires |ws| == |steps| + 1 && i < |steps| && Enabled(ws[i], steps[i]) && TouchOf(ws, steps, i, k).Some?
    requires k < |ws[i].rows| && TimesTold(ws, steps, i, k)
    ensures Duration(ws, steps, i + 1, k, kind)
      == if OfKind(TouchOf(ws, steps, i, k).value, kind) then AttemptMs(ws[i].rows[k], TimeOf(steps[i]))
         else Duration(ws, steps, i, k, kind)
  {
    TouchIsLast(ws, steps, i, k, kind);
  }

  lemma TouchError(ws: seq<World>, steps: seq<Step>, i: nat, k: nat)
    requires |ws| == |steps| + 1 && i < |steps| && Enabled(ws[i], steps[i]) && TouchOf(ws, steps, i, k).Some?
    ensures var touch := TouchOf(ws, steps, i, k).value;
      LastError(ws, steps, i + 1, k) == if OfKind(touch, Erring) then ErrorOf(touch) else LastError(ws, steps, i, k)
  {
    TouchIsLast(ws, steps, i, k, Erring);
  }

  /** What a status write does to the columns of an attempt's end. */
  lemma WrittenEnds(ws: seq<World>, steps: seq<Step>, i: nat, k: nat)
    requires |ws| == |steps| + 1 && i < |steps| && StepAt(ws, steps, i) && k < |ws[i + 1].rows|
    requires TouchOf(ws, steps, i, k).Some? && !TouchOf(ws, steps, i, k).value.Created?
    ensures k < |ws[i].rows|
    ensures var row, row' := ws[i].rows[k], ws[i + 1].rows[k];
      var touch, ms := TouchOf(ws, steps, i, k).value, AttemptMs(ws[i].rows[k], TimeOf(steps[i]));
      && row'.successMs == (if OfKind(touch, Success) then ms else row.successMs)
      && row'.errorMs == (if OfKind(touch, Failure) then ms else row.errorMs)
      && row'.errorCode == if OfKind(touch, Erring) then ErrorOf(touch) else row.errorCode
  {
    WrittenRow(ws, steps, i, k);
  }

  lemma WrittenEndsTold(ws: seq<World>, steps: seq<Step>, i: nat, k: nat)
    requires |ws| == |steps| + 1 && i < |steps| && StepAt(ws, steps, i) && k < |ws[i + 1].rows|
    requires TouchOf(ws, steps, i, k).Some? && !TouchOf(ws, steps, i, k).value.Created?
    requires k < |ws[i].rows| && TimesTold(ws, steps, i, k) && EndsTold(ws, steps, i, k)
    ensures EndsTold(ws, steps, i + 1, k)
  {
    WrittenEnds(ws, steps, i, k);
    TouchDuration(ws, steps, i, k, Success);
    TouchDuration(ws, steps, i, k, Failure);
    TouchError(ws, steps, i, k);
  }

  lemma NextTells(ws: seq<World>, steps: seq<Step>, i: nat, k: nat)
    requires IsRun(ws, steps) && i < |steps| && k < |ws[i + 1].rows| && Enabled(ws[i], steps[i])
    requires k < |ws[i].rows| ==> TellsHistory(ws, steps, i, k)
    ensures TellsHistory(ws, steps, i + 1, k)
  {
    assert StepAt(ws, steps, i);
    var touch := TouchOf(ws, steps, i, k);
    if touch.None? {
      Untouched(ws, steps, i, k);
      SameHistory(ws, steps, i, k);
    } else if touch.value.Created? {
      CreatedTells(ws, steps, i, k);
    } else {
      WrittenRow(ws, steps, i, k);
      WrittenStatusTold(ws, steps, i, k);
      WrittenTimesTold(ws, steps, i, k);
      WrittenEndsTold(ws, steps, i, k);
    }
  }

  lemma SameHistory(ws: seq<World>, steps: seq<Step>, i: nat, k: nat)
    requires |ws| == |steps| + 1 && i < |steps| && k < |ws[i].rows| && TellsHistory(ws, steps, i, k)
    requires k < |ws[i + 1].rows| && ws[i + 1].rows[k] == ws[i].rows[k] && ws[i + 1].maxAttempts == ws[i].maxAttempts
    requires forall kind :: LastTouch(ws, steps, i + 1, k, kind) == LastTouch(ws, steps, i, k, kind)
    ensures TellsHistory(ws, steps, i + 1, k)
  {
    SameTouches(ws, steps, i, k);
  }

  lemma SameTouches(ws: seq<World>, steps: seq<Step>, i: nat, k: nat)
    requires |ws| == |steps| + 1 && i < |steps|
    requires forall kind :: LastTouch(ws, steps, i + 1, k, kind) == LastTouch(ws, steps, i, k, kind)
    ensures forall kind :: LastTime(ws, steps, i + 1, k, kind) == LastTime(ws, steps, i, k, kind)
    ensures forall kind :: Duration(ws, steps, i + 1, k, kind) == Duration(ws, steps, i, k, kind)
    ensures LastError(ws, steps, i + 1, k) == LastError(ws, steps, i, k)
  {
  }

  /** Every reachable row tells its history: its status, attempts, times, durations and error code are those of
      the steps that created it, last touched it, last started it and last ended it each way. */
  lemma {:induction false} RowsTellHistory(ws: seq<World>, steps: seq<Step>, n: nat, k: nat)
    requires IsRun(ws, steps) && n < |ws| && k < |ws[n].rows|
    ensures TellsHistory(ws, steps, n, k)
  {
    assert n > 0 ==> StepAt(ws, steps, n - 1);
    if k < |ws[n - 1].rows| {
      RowsTellHistory(ws, steps, n - 1, k);
    }
    NextTells(ws, steps, n - 1, k);
  }

  /** What recording a result means for the worker that records it: its answer is 204 for a success, 500 while a
      retry is due and 200 for a failure for good. */
  lemma RecordAnswers(ws: seq<World>, steps: seq<Step>, i: nat)
    requires IsRun(ws, steps) && i < |steps| && steps[i].Record?
    ensures steps[i].d in ws[i].workers && ws[i].workers[steps[i].d].phase.Executing?
    ensures var attempt := ws[i].workers[steps[i].d].phase.attempt; var result := steps[i].result;
      && steps[i].d in ws[i + 1].workers
      && ws[i + 1].workers[steps[i].d].phase == Responding(
           if result.Ok? then 204
           else if attempt < ws[i].maxAttempts && 500 <= result.httpStatus < 600 then 500
           else 200)
  {
    assert StepAt(ws, steps, i);
  }
}
