/** The `task_runs` table: its rows, the guarded insert, the status writes and the queries. */
module RunTable {
  import opened Options
  import opened Statuses
  import opened Tasks

  /** One invocation of a task; nothing here changes after the row is inserted. */
  datatype TaskRun = TaskRun(
    logicalId: string, runId: nat, runNumber: int, backfillId: Option<string>, task: Task)

  datatype Row = Row(
    run: TaskRun, target: Target,
    statusCode: int, attempts: int,
    createdAt: int, startedAt: Option<int>,
    errorCode: Option<int>, errorMs: Option<int>, successMs: Option<int>,
    updatedAt: int)

  predicate HasStatus(row: Row, status: TaskRunStatus) {
    row.statusCode == AsI32(status)
  }

  predicate InFlight(row: Row) {
    InFlightCode(row.statusCode)
  }

  // ---- Identity of rows over time -------------------------------------------------------------

  /** `later` keeps every row of `rows` in place, with its identity; only lifecycle columns moved. */
  predicate Extends(rows: seq<Row>, later: seq<Row>) {
    && |rows| <= |later|
    && forall k | 0 <= k < |rows| :: later[k].run == rows[k].run && later[k].target == rows[k].target
  }

  /** The submission key of a tagged run; untagged runs have none (nulls are distinct). */
  predicate HasKey(run: TaskRun, backfill: Option<string>, logicalId: string) {
    backfill.Some? && run.backfillId == backfill && run.logicalId == logicalId
  }

  /** Number of runs of one logical task among the first `n` rows. */
  function RunCount(rows: seq<Row>, n: nat, logicalId: string): nat
    requires n <= |rows|
  {
    if n == 0 then 0
    else RunCount(rows, n - 1, logicalId) + if rows[n - 1].run.logicalId == logicalId then 1 else 0
  }

  /** Run ordinals count up from one in insertion order, per logical task. */
  predicate Ordinals(rows: seq<Row>) {
    forall k | 0 <= k < |rows| :: OrdinalAt(rows, k)
  }

  predicate OrdinalAt(rows: seq<Row>, k: nat)
    requires k < |rows|
  {
    rows[k].run.runNumber == RunCount(rows, k, rows[k].run.logicalId) + 1
  }

  predicate UniqueIds(rows: seq<Row>) {
    forall j, k | 0 <= j < k < |rows| :: rows[j].run.runId != rows[k].run.runId
  }

  predicate UniqueKeys(rows: seq<Row>) {
    forall j, k | 0 <= j < k < |rows| :: !HasKey(rows[j].run, rows[k].run.backfillId, rows[k].run.logicalId)
  }

  predicate KnownCodes(rows: seq<Row>) {
    forall k | 0 <= k < |rows| :: 0 <= rows[k].statusCode <= 5
  }

  predicate TableOk(rows: seq<Row>) {
    Ordinals(rows) && UniqueIds(rows) && UniqueKeys(rows) && KnownCodes(rows)
  }

  // ---- Queries --------------------------------------------------------------------------------

  function FindRun(rows: seq<Row>, runId: nat): (r: Option<Row>)
    ensures r.Some? ==> r.value in rows && r.value.run.runId == runId
    ensures r.None? ==> forall k | 0 <= k < |rows| :: rows[k].run.runId != runId
  {
    if rows == [] then None
    else if rows[0].run.runId == runId then Some(rows[0])
    else FindRun(rows[1..], runId)
  }

  function FindKey(rows: seq<Row>, backfill: Option<string>, logicalId: string): (r: Option<Row>)
    ensures r.Some? ==> r.value in rows && HasKey(r.value.run, backfill, logicalId)
    ensures r.None? ==> forall k | 0 <= k < |rows| :: !HasKey(rows[k].run, backfill, logicalId)
  {
    if rows == [] then None
    else if HasKey(rows[0].run, backfill, logicalId) then Some(rows[0])
    else FindKey(rows[1..], backfill, logicalId)
  }

  /** The run of a logical task with the greatest ordinal. */
  function LatestRun(rows: seq<Row>, logicalId: string): (r: Option<Row>)
    ensures r.Some? ==> r.value in rows && r.value.run.logicalId == logicalId
    ensures r.Some? ==>
      forall k | 0 <= k < |rows| && rows[k].run.logicalId == logicalId :: rows[k].run.runNumber <= r.value.run.runNumber
    ensures r.None? ==> forall k | 0 <= k < |rows| :: rows[k].run.logicalId != logicalId
  {
    if rows == [] then None
    else
      var rest := LatestRun(rows[1..], logicalId);
      if rows[0].run.logicalId != logicalId then rest
      else if rest.Some? && rest.value.run.runNumber >= rows[0].run.runNumber then rest
      else Some(rows[0])
  }

  // ---- Writes ---------------------------------------------------------------------------------

  datatype InsertResult = Inserted | Conflict | IdCollision

  predicate IdTaken(rows: seq<Row>, runId: nat) {
    exists k | 0 <= k < |rows| :: rows[k].run.runId == runId
  }

  predicate OrdinalTaken(rows: seq<Row>, logicalId: string, runNumber: int) {
    exists k | 0 <= k < |rows| :: rows[k].run.logicalId == logicalId && rows[k].run.runNumber == runNumber
  }

  predicate KeyTaken(rows: seq<Row>, backfill: Option<string>, logicalId: string) {
    exists k | 0 <= k < |rows| :: HasKey(rows[k].run, backfill, logicalId)
  }

  /** A run id collision is an error; only the two submission keys arbitrate duplicate work. */
  function InsertVerdict(rows: seq<Row>, run: TaskRun): InsertResult {
    if IdTaken(rows, run.runId) then IdCollision
    else if OrdinalTaken(rows, run.logicalId, run.runNumber) || KeyTaken(rows, run.backfillId, run.logicalId)
    then Conflict
    else Inserted
  }

  function NewRow(run: TaskRun, now: int): Row {
    Row(run, TargetOf(run.task), AsI32(Queued), 0, now, None, None, None, None, now)
  }

  function InsertRow(rows: seq<Row>, run: TaskRun, now: int): seq<Row> {
    if InsertVerdict(rows, run).Inserted? then rows + [NewRow(run, now)] else rows
  }

  /** The four status writes: a rejected enqueue, an attempt start, and its two kinds of outcome. */
  datatype StatusWrite =
    | Reject(code: int)
    | Start(attempt: int)
    | Succeed(attempt: int)
    | Fail(status: TaskRunStatus, attempt: int, code: int)

  function WrittenStatus(write: StatusWrite): TaskRunStatus {
    match write
    case Reject(_) => SubmissionFailed
    case Start(_) => InProgress
    case Succeed(_) => CompleteSuccess
    case Fail(status, _, _) => status
  }

  /** Milliseconds since the attempt started; null when none ever did. */
  function AttemptMs(row: Row, now: int): Option<int> {
    match row.startedAt
    case None => None
    case Some(started) => Some(now - started)
  }

  function Apply(row: Row, write: StatusWrite, now: int): Row {
    var stamped := row.(statusCode := AsI32(WrittenStatus(write)), updatedAt := now);
    match write
    case Reject(code) => stamped.(attempts := 0, errorCode := Some(code))
    case Start(attempt) => stamped.(attempts := attempt, startedAt := Some(now))
    case Succeed(attempt) => stamped.(attempts := attempt, successMs := AttemptMs(row, now))
    case Fail(_, attempt, code) =>
      stamped.(attempts := attempt, errorMs := AttemptMs(row, now), errorCode := Some(code))
  }

  /** Update by run id; a missing run changes nothing. */
  function WriteStatus(rows: seq<Row>, runId: nat, write: StatusWrite, now: int): (later: seq<Row>)
    ensures |later| == |rows| && Extends(rows, later)
    ensures forall k | 0 <= k < |rows| ::
      later[k] == if rows[k].run.runId == runId then Apply(rows[k], write, now) else rows[k]
  {
    seq(|rows|, k requires 0 <= k < |rows| =>
      if rows[k].run.runId == runId then Apply(rows[k], write, now) else rows[k])
  }

  // ---- Facts about ordinals -------------------------------------------------------------------

  lemma {:induction false} CountExtends(rows: seq<Row>, later: seq<Row>, n: nat, logicalId: string)
    requires Extends(rows, later) && n <= |rows|
    ensures RunCount(later, n, logicalId) == RunCount(rows, n, logicalId)
  {
    if n > 0 {
      CountExtends(rows, later, n - 1, logicalId);
    }
  }

  lemma {:induction false} CountMonotone(rows: seq<Row>, m: nat, n: nat, logicalId: string)
    requires m <= n <= |rows|
    ensures RunCount(rows, m, logicalId) <= RunCount(rows, n, logicalId)
    ensures forall k | m <= k < n && rows[k].run.logicalId == logicalId ::
      RunCount(rows, m, logicalId) < RunCount(rows, n, logicalId)
    decreases n
  {
    if m < n {
      CountMonotone(rows, m, n - 1, logicalId);
    }
  }

  /** Every run seen in a prefix has an ordinal between one and the prefix's count. */
  lemma OrdinalInRange(rows: seq<Row>, k: nat, n: nat)
    requires Ordinals(rows) && k < n <= |rows|
    ensures 1 <= rows[k].run.runNumber <= RunCount(rows, n, rows[k].run.logicalId)
  {
    assert OrdinalAt(rows, k);
    CountMonotone(rows, k + 1, n, rows[k].run.logicalId);
  }

  /** Conversely every ordinal up to the count is carried by a run of that prefix. */
  lemma {:induction false} OrdinalCarried(rows: seq<Row>, n: nat, logicalId: string, m: int) returns (k: nat)
    requires Ordinals(rows) && n <= |rows| && 1 <= m <= RunCount(rows, n, logicalId)
    ensures k < n && rows[k].run.logicalId == logicalId && rows[k].run.runNumber == m
  {
    if m <= RunCount(rows, n - 1, logicalId) {
      k := OrdinalCarried(rows, n - 1, logicalId, m);
    } else {
      k := n - 1;
      assert OrdinalAt(rows, k);
    }
  }

  /** The ordinals of a logical task are exactly 1..n. */
  lemma OrdinalsAreExactlyOneToN(rows: seq<Row>, logicalId: string, m: int)
    requires Ordinals(rows)
    ensures OrdinalTaken(rows, logicalId, m) <==> 1 <= m <= RunCount(rows, |rows|, logicalId)
  {
    if OrdinalTaken(rows, logicalId, m) {
      var k :| 0 <= k < |rows| && rows[k].run.logicalId == logicalId && rows[k].run.runNumber == m;
      OrdinalInRange(rows, k, |rows|);
    }
    if 1 <= m <= RunCount(rows, |rows|, logicalId) {
      var k := OrdinalCarried(rows, |rows|, logicalId, m);
    }
  }

  /** A later row of the same logical task has a greater ordinal. */
  lemma LaterRowsCountHigher(rows: seq<Row>, j: nat, k: nat)
    requires Ordinals(rows) && j < k < |rows|
    requires rows[j].run.logicalId == rows[k].run.logicalId
    ensures rows[j].run.runNumber < rows[k].run.runNumber
  {
    OrdinalInRange(rows, j, k);
    assert OrdinalAt(rows, k);
  }

  /** The latest run is the one whose ordinal is the count. */
  lemma LatestIsCount(rows: seq<Row>, logicalId: string)
    requires Ordinals(rows)
    ensures LatestRun(rows, logicalId).None? <==> RunCount(rows, |rows|, logicalId) == 0
    ensures LatestRun(rows, logicalId).Some? ==>
      LatestRun(rows, logicalId).value.run.runNumber == RunCount(rows, |rows|, logicalId)
  {
    var count := RunCount(rows, |rows|, logicalId);
    if count > 0 {
      var k := OrdinalCarried(rows, |rows|, logicalId, count);
    }
    match LatestRun(rows, logicalId)
    case None =>
    case Some(row) =>
      var k :| 0 <= k < |rows| && rows[k] == row;
      OrdinalInRange(rows, k, |rows|);
  }

  lemma OrdinalsSurvive(rows: seq<Row>, later: seq<Row>)
    requires Ordinals(rows) && Extends(rows, later)
    ensures forall k | 0 <= k < |rows| :: OrdinalAt(later, k)
  {
    forall k | 0 <= k < |rows| ensures OrdinalAt(later, k) {
      assert OrdinalAt(rows, k);
      CountExtends(rows, later, k, rows[k].run.logicalId);
    }
  }

  lemma TableSurvivesWrite(rows: seq<Row>, runId: nat, write: StatusWrite, now: int)
    requires TableOk(rows)
    ensures TableOk(WriteStatus(rows, runId, write, now))
  {
    OrdinalsSurvive(rows, WriteStatus(rows, runId, write, now));
  }

  /** An accepted insert keeps every table invariant when its ordinal was decided from an earlier
      state of the same table. */
  lemma TableSurvivesInsert(rows: seq<Row>, readLen: nat, run: TaskRun, now: int)
    requires TableOk(rows) && readLen <= |rows|
    requires run.runNumber == RunCount(rows, readLen, run.logicalId) + 1
    requires InsertVerdict(rows, run).Inserted?
    ensures run.runNumber == RunCount(rows, |rows|, run.logicalId) + 1
    ensures TableOk(rows + [NewRow(run, now)]) && Extends(rows, rows + [NewRow(run, now)])
  {
    var later := rows + [NewRow(run, now)];
    CountMonotone(rows, readLen, |rows|, run.logicalId);
    OrdinalsAreExactlyOneToN(rows, run.logicalId, run.runNumber);
    OrdinalsSurvive(rows, later);
    CountExtends(rows, later, |rows|, run.logicalId);
    assert OrdinalAt(later, |rows|);
  }
}
