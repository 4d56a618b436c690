/** Replay of task status for a newly opened stream: the owner's latest run per entity and task type,
    with memoised estimates. */
module Catchup {
  import opened Options
  import opened Statuses
  import opened RunTable
  import opened Protocol
  import opened ProtocolSafety
  import opened Timing
  import opened Backfill
  import opened Orders

  datatype Update = Update(
    timestamp: int, entityType: string, entityId: int, ownerId: int,
    taskType: string, status: TaskRunStatus, logicalId: string, runId: nat, runNumber: int, attempts: int,
    startedAt: Option<int>, estimateMs: Option<int>)

  /** The announcement for one row; a row with an unknown status announces nothing. */
  function FromRow(row: Row, estimate: Option<Estimate>): Option<Update> {
    match FromI32(row.statusCode)
    case None => None
    case Some(status) =>
      Some(Update(
        row.updatedAt, row.target.entityType, row.target.entityId, row.target.ownerId,
        row.target.taskType, status, row.run.logicalId, row.run.runId, row.run.runNumber, row.attempts,
        row.startedAt, if estimate.Some? then ClientDuration(estimate.value) else None))
  }

  predicate IsRunning(row: Row) {
    HasStatus(row, InProgress)
  }

  // ---- Latest run per entity and task type ----------------------------------------------------

  predicate Wanted(row: Row, q: Query) {
    row.target.ownerId == q.owner && row.target.entityType == q.entityType && row.target.entityId in q.ids
  }

  predicate SameGroup(a: Row, b: Row) {
    a.target.entityId == b.target.entityId && a.target.taskType == b.target.taskType
  }

  datatype Query = Query(owner: int, entityType: string, ids: seq<int>)

  /** A result row is a wanted row with the greatest ordinal of its (entity, task type) group. */
  predicate LeadsGroup(rows: seq<Row>, q: Query, row: Row) {
    && row in rows && Wanted(row, q)
    && forall k | 0 <= k < |rows| && Wanted(rows[k], q) && SameGroup(rows[k], row) ::
         rows[k].run.runNumber <= row.run.runNumber
  }

  predicate Covered(result: seq<Row>, row: Row) {
    exists i | 0 <= i < |result| :: SameGroup(row, result[i])
  }

  /** A result of `query_latest_task_runs`, in any order: exactly one row per wanted group. */
  predicate IsLatestPerGroup(rows: seq<Row>, q: Query, result: seq<Row>) {
    && (forall i | 0 <= i < |result| :: LeadsGroup(rows, q, result[i]))
    && GroupsApart(result)
    && (forall row | row in rows && Wanted(row, q) :: Covered(result, row))
  }

  lemma SameGroupSameTask(rows: seq<Row>, k: nat, j: nat, q: Query)
    requires TableKeyed(rows) && k < |rows| && j < |rows| && Wanted(rows[k], q) && Wanted(rows[j], q)
    ensures SameGroup(rows[k], rows[j]) <==> rows[k].run.logicalId == rows[j].run.logicalId
  {
    ColumnsMatchKey(rows, j, rows[k].run.task);
    assert RunKeyed(rows[k].run);
  }

  lemma SameTaskWanted(rows: seq<Row>, k: nat, j: nat, q: Query)
    requires TableKeyed(rows) && k < |rows| && j < |rows| && Wanted(rows[k], q)
    requires rows[k].run.logicalId == rows[j].run.logicalId
    ensures Wanted(rows[j], q) && SameGroup(rows[j], rows[k])
  {
    ColumnsMatchKey(rows, j, rows[k].run.task);
    assert RunKeyed(rows[k].run);
  }

  /** On a sound table the row that leads a group is the row the by-logical-id query calls latest. */
  lemma LeaderIsLatest(rows: seq<Row>, q: Query, row: Row)
    requires Sound(rows) && LeadsGroup(rows, q, row)
    ensures LatestRun(rows, row.run.logicalId) == Some(row)
  {
    var k :| 0 <= k < |rows| && rows[k] == row;
    var latest := LatestRun(rows, row.run.logicalId).value;
    var j :| 0 <= j < |rows| && rows[j] == latest;
    SameTaskWanted(rows, k, j, q);
    if j < k {
      LaterRowsCountHigher(rows, j, k);
    } else if k < j {
      LaterRowsCountHigher(rows, k, j);
    }
  }

  /** The leaders among the first `n` rows: a computable result of the query. */
  function LeadersUpTo(rows: seq<Row>, q: Query, n: nat): seq<Row>
    requires n <= |rows|
  {
    if n == 0 then []
    else LeadersUpTo(rows, q, n - 1) + if LeadsGroup(rows, q, rows[n - 1]) then [rows[n - 1]] else []
  }

  lemma {:induction false} LeaderComesFrom(rows: seq<Row>, q: Query, n: nat, i: nat) returns (k: nat)
    requires n <= |rows| && i < |LeadersUpTo(rows, q, n)|
    ensures k < n && rows[k] == LeadersUpTo(rows, q, n)[i] && LeadsGroup(rows, q, rows[k])
  {
    if i < |LeadersUpTo(rows, q, n - 1)| {
      k := LeaderComesFrom(rows, q, n - 1, i);
    } else {
      k := n - 1;
    }
  }

  lemma {:induction false} LeaderIsListed(rows: seq<Row>, q: Query, n: nat, k: nat)
    requires k < n <= |rows| && LeadsGroup(rows, q, rows[k])
    ensures rows[k] in LeadersUpTo(rows, q, n)
  {
    if k < n - 1 {
      LeaderIsListed(rows, q, n - 1, k);
    }
  }

  lemma LeadersAreApart(rows: seq<Row>, q: Query, j: nat, k: nat)
    requires Sound(rows) && j < k < |rows| && LeadsGroup(rows, q, rows[j]) && LeadsGroup(rows, q, rows[k])
    ensures !SameGroup(rows[j], rows[k])
  {
    if SameGroup(rows[j], rows[k]) {
      SameGroupSameTask(rows, j, k, q);
      LaterRowsCountHigher(rows, j, k);
    }
  }

  predicate GroupsApart(s: seq<Row>) {
    forall i, j | 0 <= i < j < |s| :: !SameGroup(s[i], s[j])
  }

  lemma EarlierLeadersApart(rows: seq<Row>, q: Query, n: nat, i: nat)
    requires Sound(rows) && n < |rows| && LeadsGroup(rows, q, rows[n]) && i < |LeadersUpTo(rows, q, n)|
    ensures !SameGroup(LeadersUpTo(rows, q, n)[i], rows[n])
  {
    var k := LeaderComesFrom(rows, q, n, i);
    LeadersAreApart(rows, q, k, n);
  }

  lemma AppendApart(s: seq<Row>, row: Row)
    requires GroupsApart(s) && forall i | 0 <= i < |s| :: !SameGroup(s[i], row)
    ensures GroupsApart(s + [row])
  {
  }

  lemma EarlierLeadersAllApart(rows: seq<Row>, q: Query, n: nat)
    requires Sound(rows) && n < |rows| && LeadsGroup(rows, q, rows[n]) && GroupsApart(LeadersUpTo(rows, q, n))
    ensures GroupsApart(LeadersUpTo(rows, q, n) + [rows[n]])
  {
    var prev := LeadersUpTo(rows, q, n);
    forall i | 0 <= i < |prev| ensures !SameGroup(prev[i], rows[n]) {
      EarlierLeadersApart(rows, q, n, i);
    }
    AppendApart(prev, rows[n]);
  }

  lemma OneMoreApart(rows: seq<Row>, q: Query, n: nat)
    requires Sound(rows) && n < |rows| && GroupsApart(LeadersUpTo(rows, q, n))
    ensures GroupsApart(LeadersUpTo(rows, q, n + 1))
  {
    var prev := LeadersUpTo(rows, q, n);
    if LeadsGroup(rows, q, rows[n]) {
      EarlierLeadersAllApart(rows, q, n);
      assert LeadersUpTo(rows, q, n + 1) == prev + [rows[n]];
    } else {
      assert LeadersUpTo(rows, q, n + 1) == prev;
    }
  }

  lemma LeadersOncePerGroup(rows: seq<Row>, q: Query, n: nat)
    requires Sound(rows) && n <= |rows|
    ensures GroupsApart(LeadersUpTo(rows, q, n))
  {
    for i := 0 to n
      invariant GroupsApart(LeadersUpTo(rows, q, i))
    {
      OneMoreApart(rows, q, i);
    }
  }

  lemma LatestLeads(rows: seq<Row>, q: Query, k: nat) returns (j: nat)
    requires Sound(rows) && k < |rows| && Wanted(rows[k], q)
    ensures j < |rows| && LeadsGroup(rows, q, rows[j]) && SameGroup(rows[k], rows[j])
  {
    var latest := LatestRun(rows, rows[k].run.logicalId).value;
    j :| 0 <= j < |rows| && rows[j] == latest;
    SameTaskWanted(rows, k, j, q);
    forall i | 0 <= i < |rows| && Wanted(rows[i], q) && SameGroup(rows[i], rows[j])
      ensures rows[i].run.runNumber <= rows[j].run.runNumber
    {
      SameGroupSameTask(rows, i, j, q);
    }
  }

  /** Every sound table has a query result. */
  lemma QueryHasResult(rows: seq<Row>, q: Query)
    requires Sound(rows)
    ensures IsLatestPerGroup(rows, q, LeadersUpTo(rows, q, |rows|))
  {
    var result := LeadersUpTo(rows, q, |rows|);
    LeadersOncePerGroup(rows, q, |rows|);
    forall i | 0 <= i < |result| ensures LeadsGroup(rows, q, result[i]) {
      var k := LeaderComesFrom(rows, q, |rows|, i);
    }
    forall row | row in rows && Wanted(row, q) ensures Covered(result, row) {
      var k :| 0 <= k < |rows| && rows[k] == row;
      var j := LatestLeads(rows, q, k);
      LeaderIsListed(rows, q, |rows|, j);
    }
  }

  // ---- Events ---------------------------------------------------------------------------------

  /** The event replayed for a row when the estimate is looked up directly. */
  function Replay(row: Row, lookup: string -> Option<Estimate>): Option<Update> {
    FromRow(row, if IsRunning(row) then lookup(row.target.taskType) else None)
  }

  /** The event published live when the row was written. */
  function Live(row: Row, lookup: string -> Option<Estimate>): Option<Update> {
    FromRow(row, lookup(row.target.taskType))
  }

  /** The replayed events of the first `n` rows. */
  function Events(result: seq<Row>, n: nat, lookup: string -> Option<Estimate>): seq<Update>
    requires n <= |result|
  {
    if n == 0 then []
    else
      match Replay(result[n - 1], lookup)
      case Some(update) => Events(result, n - 1, lookup) + [update]
      case None => Events(result, n - 1, lookup)
  }

  predicate RunningType(result: seq<Row>, n: nat, t: string)
    requires n <= |result|
  {
    exists i | 0 <= i < n :: IsRunning(result[i]) && result[i].target.taskType == t
  }

  /** `StatusCatchup::events`: one aggregate lookup per distinct running task type, memoised, and the same
      events as looking each one up directly. */
  method CatchupEvents(result: seq<Row>, lookup: string -> Option<Estimate>)
    returns (events: seq<Update>, lookups: seq<string>)
    ensures events == Events(result, |result|, lookup)
    ensures Distinct(lookups)
    ensures forall t :: t in lookups <==> RunningType(result, |result|, t)
  {
    var estimates: map<string, Option<Estimate>> := map[];
    lookups := [];
    for i := 0 to |result|
      invariant Distinct(lookups) && (forall t :: t in lookups <==> t in estimates)
      invariant forall t | t in estimates :: estimates[t] == lookup(t)
      invariant forall t :: t in estimates <==> RunningType(result, i, t)
    {
      var row := result[i];
      ghost var before := estimates;
      if IsRunning(row) && row.target.taskType !in estimates {
        lookups := lookups + [row.target.taskType];
        estimates := estimates[row.target.taskType := lookup(row.target.taskType)];
      }
      forall t ensures t in estimates <==> RunningType(result, i + 1, t) {
        RunningGrows(result, i, t);
      }
    }
    events := [];
    for i := 0 to |result|
      invariant events == Events(result, i, lookup)
    {
      var row := result[i];
      var estimate := None;
      if IsRunning(row) {
        assert RunningType(result, |result|, row.target.taskType);
        estimate := estimates[row.target.taskType];
      }
      var update := FromRow(row, estimate);
      if update.Some? {
        events := events + [update.value];
      }
    }
  }

  lemma RunningGrows(result: seq<Row>, n: nat, t: string)
    requires n < |result|
    ensures RunningType(result, n + 1, t) <==>
      RunningType(result, n, t) || (IsRunning(result[n]) && result[n].target.taskType == t)
  {
  }

  predicate Names(update: Update, row: Row) {
    && update.entityType == row.target.entityType && update.entityId == row.target.entityId
    && update.taskType == row.target.taskType && update.ownerId == row.target.ownerId
    && update.logicalId == row.run.logicalId && update.runId == row.run.runId && update.runNumber == row.run.runNumber
    && AsI32(update.status) == row.statusCode && update.attempts == row.attempts
    && update.startedAt == row.startedAt && update.timestamp == row.updatedAt
  }

  /** Clients see the median of at least five samples, and nothing else. */
  predicate ShowsMedian(ms: Option<int>, estimate: Option<Estimate>) {
    match estimate
    case Some(e) => if e.sampleCount >= 5 then ms == Some(e.p50) else ms == None
    case None => ms == None
  }

  /** A run in progress carries the estimate of its type, any other run none. */
  predicate Estimates(update: Update, row: Row, lookup: string -> Option<Estimate>) {
    ShowsMedian(update.estimateMs, if row.statusCode == 2 then lookup(row.target.taskType) else None)
  }

  lemma ReplayNames(row: Row, lookup: string -> Option<Estimate>)
    requires Replay(row, lookup).Some?
    ensures Names(Replay(row, lookup).value, row) && Estimates(Replay(row, lookup).value, row, lookup)
  {
  }

  /** One event per replayed row, in order, naming that row's run. */
  lemma {:induction false} OneEventPerRow(result: seq<Row>, n: nat, lookup: string -> Option<Estimate>)
    requires KnownCodes(result) && n <= |result|
    ensures |Events(result, n, lookup)| == n
    ensures forall i | 0 <= i < n :: Names(Events(result, n, lookup)[i], result[i])
    ensures forall i | 0 <= i < n :: Estimates(Events(result, n, lookup)[i], result[i], lookup)
    ensures forall i | 0 <= i < n :: Replay(result[i], lookup) == Some(Events(result, n, lookup)[i])
  {
    if n > 0 {
      OneEventPerRow(result, n - 1, lookup);
      assert Replay(result[n - 1], lookup).Some?;
      ReplayNames(result[n - 1], lookup);
    }
  }

  /** Each wanted run has its group's leader in the result, once, and that is its task's latest run. */
  lemma GroupHasOneLeader(rows: seq<Row>, q: Query, result: seq<Row>, k: nat) returns (i: nat)
    requires Sound(rows) && IsLatestPerGroup(rows, q, result)
    requires k < |rows| && Wanted(rows[k], q)
    ensures i < |result| && LatestRun(rows, rows[k].run.logicalId) == Some(result[i])
    ensures forall j | 0 <= j < |result| :: SameGroup(rows[k], result[j]) <==> j == i
  {
    assert Covered(result, rows[k]);
    i :| 0 <= i < |result| && SameGroup(rows[k], result[i]);
    assert LeadsGroup(rows, q, result[i]);
    LeaderIsLatest(rows, q, result[i]);
    GroupNamesTask(rows, k, result[i], q);
    GroupMembersUnique(result, rows[k], i);
  }

  lemma GroupMembersUnique(result: seq<Row>, row: Row, i: nat)
    requires GroupsApart(result) && i < |result| && SameGroup(row, result[i])
    ensures forall j | 0 <= j < |result| :: SameGroup(row, result[j]) <==> j == i
  {
    forall j | 0 <= j < |result| && j != i ensures !SameGroup(row, result[j]) {
      if j < i {
        assert !SameGroup(result[j], result[i]);
      } else {
        assert !SameGroup(result[i], result[j]);
      }
    }
  }

  /** Catch-up is exact: for each wanted run there is exactly one event of its entity and task type, and it
      names the latest run of that logical task. */
  lemma {:induction false} CatchupIsExact(rows: seq<Row>, q: Query, result: seq<Row>,
                                          lookup: string -> Option<Estimate>, k: nat)
    returns (i: nat)
    requires Sound(rows) && IsLatestPerGroup(rows, q, result) && k < |rows|
    requires rows[k].target.ownerId == q.owner && rows[k].target.entityType == q.entityType
    requires rows[k].target.entityId in q.ids
    ensures var events := Events(result, |result|, lookup); var latest := LatestRun(rows, rows[k].run.logicalId);
      && |events| == |result| && i < |events|
      && latest.Some? && Names(events[i], latest.value) && Estimates(events[i], latest.value, lookup)
      && (forall j | 0 <= j < |events| ::
            events[j].entityId == rows[k].target.entityId && events[j].taskType == rows[k].target.taskType <==> j == i)
      && (forall j | 0 <= j < |events| :: AsksFor(q, events[j]))
  {
    assert Wanted(rows[k], q);
    i := GroupHasOneLeader(rows, q, result, k);
    ResultCodesKnown(rows, q, result);
    OneEventPerRow(result, |result|, lookup);
    var events := Events(result, |result|, lookup);
    forall j | 0 <= j < |events|
      ensures AsksFor(q, events[j])
      ensures events[j].entityId == rows[k].target.entityId && events[j].taskType == rows[k].target.taskType <==> j == i
    {
      EventOfGroup(rows, q, result[j], events[j], rows[k]);
      assert SameGroup(rows[k], result[j]) <==> j == i;
    }
  }

  /** The event is the owner's and about one of the entities asked for. */
  predicate AsksFor(q: Query, update: Update) {
    update.ownerId == q.owner && update.entityType == q.entityType && update.entityId in q.ids
  }

  lemma EventOfGroup(rows: seq<Row>, q: Query, leader: Row, update: Update, row: Row)
    requires LeadsGroup(rows, q, leader) && Names(update, leader)
    ensures AsksFor(q, update)
    ensures update.entityId == row.target.entityId && update.taskType == row.target.taskType <==> SameGroup(row, leader)
  {
  }

  lemma ResultCodesKnown(rows: seq<Row>, q: Query, result: seq<Row>)
    requires KnownCodes(rows) && IsLatestPerGroup(rows, q, result)
    ensures KnownCodes(result)
  {
    forall j | 0 <= j < |result| ensures 0 <= result[j].statusCode <= 5 {
      LeaderCodeKnown(rows, q, result[j]);
    }
  }

  lemma LeaderCodeKnown(rows: seq<Row>, q: Query, row: Row)
    requires KnownCodes(rows) && LeadsGroup(rows, q, row)
    ensures 0 <= row.statusCode <= 5
  {
    var k :| 0 <= k < |rows| && rows[k] == row;
  }

  lemma GroupNamesTask(rows: seq<Row>, k: nat, row: Row, q: Query)
    requires TableKeyed(rows) && k < |rows| && Wanted(rows[k], q) && LeadsGroup(rows, q, row) && SameGroup(rows[k], row)
    ensures rows[k].run.logicalId == row.run.logicalId
  {
    var j :| 0 <= j < |rows| && rows[j] == row;
    SameGroupSameTask(rows, k, j, q);
  }

  /** The client-visible part of an estimate. */
  function Shown(estimate: Option<Estimate>): Option<int> {
    if estimate.Some? then ClientDuration(estimate.value) else None
  }

  /** The publisher looks the estimate up when the row is written, the catch-up when it replays. The two events
      of a row are equal exactly when, for a run in progress, both look-ups show clients the same, and, for any
      other run, the publisher's showed nothing. */
  lemma {:induction false} ReplayEqualsLiveIff(row: Row, atWrite: string -> Option<Estimate>,
                                               atReplay: string -> Option<Estimate>)
    requires 0 <= row.statusCode <= 5
    ensures var t := row.target.taskType;
      Replay(row, atReplay) == Live(row, atWrite) <==>
        Shown(atWrite(t)) == if IsRunning(row) then Shown(atReplay(t)) else None
  {
  }

  /** A run in progress in state `n` whose row is as step `i` wrote it: if no run of its type has succeeded since,
      the replayed event is the one published then, because the stored aggregate has not moved. */
  lemma {:induction false} RunningReplayEqualsLive(ws: seq<World>, steps: seq<Step>, caches: seq<Cache>,
                                                   oks: seq<bool>, agg: seq<Sample> -> Estimate, i: nat, n: nat,
                                                   k: nat)
    requires IsRun(ws, steps) && CachesFollow(ws, steps, caches, oks, agg) && i < n < |ws|
    requires k < |ws[i + 1].rows| && k < |ws[n].rows| && ws[n].rows[k] == ws[i + 1].rows[k] && IsRunning(ws[n].rows[k])
    requires forall j | i < j < n :: !SucceedsAt(ws, steps, j, ws[n].rows[k].target.taskType)
    ensures Replay(ws[n].rows[k], t => Lookup(caches[n], t)) == Live(ws[i + 1].rows[k], t => Lookup(caches[i + 1], t))
  {
    AggregateKept(ws, steps, caches, oks, agg, i + 1, n, ws[n].rows[k].target.taskType);
  }
}
