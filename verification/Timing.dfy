/** The processing-time aggregate kept beside `task_runs`: refreshed only by success writes, yet always
    equal to recomputing it from the table. */
module Timing {
  import opened Options
  import opened Statuses
  import opened RunTable
  import opened Protocol
  import opened Discipline
  import opened DisciplineSafety
  import opened Orders

  const SAMPLE_LIMIT: nat := 30
  const MINIMUM_CLIENT_SAMPLES: int := 5

  datatype Estimate = Estimate(sampleCount: int, avg: int, p50: int, p75: int, p90: int)

  /** Clients only see an estimate backed by enough history. */
  function ClientDuration(e: Estimate): (r: Option<int>)
    ensures r == Some(e.p50) <==> e.sampleCount > 4
    ensures r == None <==> e.sampleCount < 5
  {
    if e.sampleCount >= MINIMUM_CLIENT_SAMPLES then Some(e.p50) else None
  }

  // ---- The sampled window ---------------------------------------------------------------------

  predicate IsSample(row: Row, taskType: string) {
    row.target.taskType == taskType && HasStatus(row, CompleteSuccess) && row.successMs.Some?
  }

  datatype Sample = Sample(at: int, ms: int)

  /** The samples among the first `n` rows, in table order. */
  function Samples(rows: seq<Row>, n: nat, taskType: string): seq<Sample>
    requires n <= |rows|
  {
    if n == 0 then []
    else
      Samples(rows, n - 1, taskType)
      + if IsSample(rows[n - 1], taskType) then [Sample(rows[n - 1].updatedAt, rows[n - 1].successMs.value)] else []
  }

  /** Sorting by this key puts the newest first. */
  function Recency(x: Sample): Key {
    Key(-x.at, 0)
  }

  /** The newest successful runs of a type, newest first, at most thirty. */
  function Window(rows: seq<Row>, taskType: string): seq<Sample> {
    var ordered := Sort(Recency, Samples(rows, |rows|, taskType));
    if |ordered| <= SAMPLE_LIMIT then ordered else ordered[..SAMPLE_LIMIT]
  }

  /** Newest first. */
  predicate NewestFirst(s: seq<Sample>) {
    forall i, j | 0 <= i < j < |s| :: s[i].at >= s[j].at
  }

  /** The sample of a successful run of the type. */
  predicate IsSampleOf(x: Sample, row: Row, t: string) {
    && row.target.taskType == t && row.statusCode == 4
    && row.updatedAt == x.at && row.successMs == Some(x.ms)
  }

  lemma {:induction false} SamplesComeFromRows(rows: seq<Row>, n: nat, t: string)
    requires n <= |rows|
    ensures forall x :: x in Samples(rows, n, t) <==> exists k | 0 <= k < n :: IsSampleOf(x, rows[k], t)
  {
    if n > 0 {
      SamplesComeFromRows(rows, n - 1, t);
    }
  }

  /** The window holds samples of successful runs of the type, newest first, at most thirty; a successful run that
      is not in it is no newer than any of the thirty that are. */
  lemma WindowIsNewest(rows: seq<Row>, t: string, k: nat)
    requires k < |rows| && rows[k].target.taskType == t && rows[k].statusCode == 4 && rows[k].successMs.Some?
    ensures var window := Window(rows, t);
      && NewestFirst(window) && |window| <= 30
      && (forall x | x in window :: exists j | 0 <= j < |rows| :: IsSampleOf(x, rows[j], t))
      && (Sample(rows[k].updatedAt, rows[k].successMs.value) in window
          || (|window| == 30 && forall x | x in window :: x.at >= rows[k].updatedAt))
  {
    var samples := Samples(rows, |rows|, t);
    var ordered := Sort(Recency, samples);
    var x := Sample(rows[k].updatedAt, rows[k].successMs.value);
    SamplesComeFromRows(rows, |rows|, t);
    SortKeepsBag(Recency, samples);
    SameBagDistinct(samples, ordered);
    assert IsSampleOf(x, rows[k], t) && x in samples && x in ordered;
    forall y | y in Window(rows, t) ensures exists j | 0 <= j < |rows| :: IsSampleOf(y, rows[j], t) {
      assert y in ordered && y in samples;
    }
    var i :| 0 <= i < |ordered| && ordered[i] == x;
    forall a, b | 0 <= a < b < |ordered| ensures ordered[a].at >= ordered[b].at {
      assert AtMost(Recency(ordered[a]), Recency(ordered[b]));
    }
  }

  /** With distinct update times every newest-first order of the samples starts with this window, so any
      engine computes it. */
  lemma WindowIsUnique(rows: seq<Row>, t: string, ordered: seq<Sample>)
    requires forall i, j | 0 <= i < j < |ordered| :: ordered[i].at > ordered[j].at
    requires multiset(ordered) == multiset(Samples(rows, |rows|, t))
    ensures Window(rows, t) == if |ordered| <= 30 then ordered else ordered[..30]
  {
    SortRestores(Recency, ordered, Samples(rows, |rows|, t));
  }

  // ---- The cache ------------------------------------------------------------------------------

  type Cache = map<string, Estimate>

  /** `refresh_timing_measures` for processing time: only a success write recomputes, and an empty window
      stores nothing. `agg` is the database's aggregate, whatever it is. */
  function Refresh(cache: Cache, rows: seq<Row>, taskType: string, status: TaskRunStatus,
                   agg: seq<Sample> -> Estimate): Cache
  {
    if status.CompleteSuccess? && Window(rows, taskType) != [] then cache[taskType := agg(Window(rows, taskType))]
    else cache
  }

  /** The stored aggregate of a type is what recomputation would give, and it is there iff there is a sample. */
  predicate CoherentFor(cache: Cache, rows: seq<Row>, agg: seq<Sample> -> Estimate, t: string) {
    && (t in cache <==> Window(rows, t) != [])
    && (t in cache ==> cache[t] == agg(Window(rows, t)))
  }

  /** The cache after a step whose refresh succeeds: a status write that hits a row refreshes that row's type. */
  function CacheAfter(cache: Cache, w: World, step: Step, agg: seq<Sample> -> Estimate): Cache
    requires Enabled(w, step)
  {
    match WriteOf(w, step)
    case None => cache
    case Some(write) =>
      match FindRun(Next(w, step).rows, write.0)
      case None => cache
      case Some(row) => Refresh(cache, Next(w, step).rows, row.target.taskType, WrittenStatus(write.1), agg)
  }

  /** The type of the run a step records as a success, if it does. */
  function SuccessType(w: World, step: Step): Option<string>
    requires Enabled(w, step)
  {
    match WriteOf(w, step)
    case Some((id, Succeed(_))) =>
      (match FindRun(Next(w, step).rows, id) case Some(row) => Some(row.target.taskType) case None => None)
    case _ => None
  }

  /** The rows that matter for a type did not change. */
  predicate SamplesKept(rows: seq<Row>, later: seq<Row>, t: string) {
    && |rows| <= |later|
    && (forall k | 0 <= k < |rows| :: IsSample(rows[k], t) || IsSample(later[k], t) ==> later[k] == rows[k])
    && (forall k | |rows| <= k < |later| :: !IsSample(later[k], t))
  }

  lemma {:induction false} SamplesUnchanged(rows: seq<Row>, later: seq<Row>, n: nat, t: string)
    requires SamplesKept(rows, later, t) && n <= |later|
    ensures Samples(later, n, t) == Samples(rows, if n <= |rows| then n else |rows|, t)
  {
    if n > 0 {
      SamplesUnchanged(rows, later, n - 1, t);
    }
  }

  lemma WindowUnchanged(rows: seq<Row>, later: seq<Row>, t: string)
    requires SamplesKept(rows, later, t)
    ensures Window(later, t) == Window(rows, t)
  {
    SamplesUnchanged(rows, later, |later|, t);
  }

  /** Only a success write moves a window, and only that of its own type: this is where absorbing
      success is needed. */
  lemma OnlySuccessMovesWindow(w: World, step: Step, t: string)
    requires WorkersOk(w) && HoldersOk(w) && Enabled(w, step)
    requires WriteOf(w, step).Some? && WriteOf(w, step).value.1.Succeed? ==>
      forall k | 0 <= k < |w.rows| && w.rows[k].run.runId == WriteOf(w, step).value.0 :: w.rows[k].target.taskType != t
    ensures SamplesKept(w.rows, Next(w, step).rows, t)
  {
    TableEffect(w, step);
    StepWritesLawfully(w, step);
  }

  lemma {:induction false} SampleCounted(rows: seq<Row>, n: nat, k: nat, t: string)
    requires k < n <= |rows| && IsSample(rows[k], t)
    ensures Samples(rows, n, t) != []
  {
    if k < n - 1 {
      SampleCounted(rows, n - 1, k, t);
    }
  }

  lemma WindowNonempty(rows: seq<Row>, k: nat, t: string)
    requires k < |rows| && IsSample(rows[k], t)
    ensures Window(rows, t) != []
  {
    SampleCounted(rows, |rows|, k, t);
  }

  /** A permitted success write leaves a sample behind. */
  lemma SuccessLeavesSample(w: World, step: Step, k: nat)
    requires RowsOk(w) && WorkersOk(w) && HoldersOk(w) && Enabled(w, step)
    requires WriteOf(w, step).Some? && WriteOf(w, step).value.1.Succeed?
    requires k < |w.rows| && w.rows[k].run.runId == WriteOf(w, step).value.0
    ensures k < |Next(w, step).rows| && IsSample(Next(w, step).rows[k], w.rows[k].target.taskType)
  {
    TableEffect(w, step);
    StepWritesLawfully(w, step);
    assert RowOk(w, w.rows[k]);
  }

  /** A success write moves the window of its own row's type only. */
  lemma SuccessMovesOneWindow(w: World, step: Step, k: nat, t: string)
    requires UniqueIds(w.rows) && RowsOk(w) && WorkersOk(w) && HoldersOk(w) && Enabled(w, step)
    requires WriteOf(w, step).Some? && WriteOf(w, step).value.1.Succeed?
    requires k < |w.rows| && w.rows[k].run.runId == WriteOf(w, step).value.0
    ensures Window(Next(w, step).rows, w.rows[k].target.taskType) != []
    ensures t != w.rows[k].target.taskType ==> Window(Next(w, step).rows, t) == Window(w.rows, t)
  {
    SuccessLeavesSample(w, step, k);
    WindowNonempty(Next(w, step).rows, k, w.rows[k].target.taskType);
    if t != w.rows[k].target.taskType {
      forall j | 0 <= j < |w.rows| && w.rows[j].run.runId == w.rows[k].run.runId ensures j == k {
      }
      OnlySuccessMovesWindow(w, step, t);
      WindowUnchanged(w.rows, Next(w, step).rows, t);
    }
  }

  lemma SuccessRowLookup(w: World, step: Step) returns (k: int)
    requires UniqueIds(w.rows) && Enabled(w, step) && WriteOf(w, step).Some?
    ensures k < |w.rows| && Extends(w.rows, Next(w, step).rows) && |Next(w, step).rows| == |w.rows|
    ensures k >= 0 ==> w.rows[k].run.runId == WriteOf(w, step).value.0
    ensures k >= 0 ==> FindRun(Next(w, step).rows, WriteOf(w, step).value.0) == Some(Next(w, step).rows[k])
    ensures k < 0 ==> FindRun(Next(w, step).rows, WriteOf(w, step).value.0).None?
    ensures k < 0 ==> forall j | 0 <= j < |w.rows| :: w.rows[j].run.runId != WriteOf(w, step).value.0
  {
    TableEffect(w, step);
    var later, id := Next(w, step).rows, WriteOf(w, step).value.0;
    match FindRun(later, id)
    case None =>
      k := -1;
      forall j | 0 <= j < |w.rows| ensures w.rows[j].run.runId != id {
        assert later[j].run == w.rows[j].run;
      }
    case Some(row) =>
      k :| 0 <= k < |later| && later[k] == row;
      assert w.rows[k].run == later[k].run;
  }

  /** A permitted step that is no success of a type does not move its window. */
  lemma OtherWindowsKept(w: World, step: Step, t: string)
    requires UniqueIds(w.rows) && RowsOk(w) && WorkersOk(w) && HoldersOk(w) && Enabled(w, step)
    requires SuccessType(w, step) != Some(t)
    ensures Window(Next(w, step).rows, t) == Window(w.rows, t)
  {
    var succeeds := WriteOf(w, step).Some? && WriteOf(w, step).value.1.Succeed?;
    var k := -1;
    if succeeds {
      k := SuccessRowLookup(w, step);
    }
    if k >= 0 {
      SuccessMovesOneWindow(w, step, k, t);
    } else {
      OnlySuccessMovesWindow(w, step, t);
      WindowUnchanged(w.rows, Next(w, step).rows, t);
    }
  }

  /** Nor does any step but a success of the type change its stored aggregate. */
  lemma {:induction false} StoredElsewhereKept(w: World, step: Step, cache: Cache, agg: seq<Sample> -> Estimate,
                                               t: string)
    requires Enabled(w, step) && SuccessType(w, step) != Some(t)
    ensures Lookup(CacheAfter(cache, w, step, agg), t) == Lookup(cache, t)
  {
  }

  /** A success whose refresh succeeds makes the aggregate of its type right, whatever it was before. */
  lemma {:induction false} RefreshHeals(w: World, step: Step, cache: Cache, agg: seq<Sample> -> Estimate, t: string)
    requires UniqueIds(w.rows) && RowsOk(w) && WorkersOk(w) && HoldersOk(w) && Enabled(w, step)
    requires SuccessType(w, step) == Some(t)
    ensures CoherentFor(CacheAfter(cache, w, step, agg), Next(w, step).rows, agg, t)
  {
    var k := SuccessRowLookup(w, step);
    SuccessMovesOneWindow(w, step, k, t);
  }

  // ---- Whole runs -----------------------------------------------------------------------------

  function Lookup(cache: Cache, t: string): Option<Estimate> {
    if t in cache then Some(cache[t]) else None
  }

  /** The stored aggregates along a run: refreshing is best effort, `oks[i]` says whether step i's succeeded. */
  predicate CachesFollow(ws: seq<World>, steps: seq<Step>, caches: seq<Cache>, oks: seq<bool>,
                         agg: seq<Sample> -> Estimate) {
    && |ws| == |steps| + 1 && |caches| == |ws| && |oks| == |steps| && caches[0] == map[]
    && forall i | 0 <= i < |steps| :: CacheAt(ws, steps, caches, oks, agg, i)
  }

  predicate CacheAt(ws: seq<World>, steps: seq<Step>, caches: seq<Cache>, oks: seq<bool>, agg: seq<Sample> -> Estimate,
                    i: nat)
    requires |ws| == |steps| + 1 && |caches| == |ws| && |oks| == |steps| && i < |steps|
  {
    Enabled(ws[i], steps[i]) ==>
      caches[i + 1] == if oks[i] then CacheAfter(caches[i], ws[i], steps[i], agg) else caches[i]
  }

  predicate SucceedsAt(ws: seq<World>, steps: seq<Step>, i: nat, t: string)
    requires |ws| == |steps| + 1 && i < |steps|
  {
    Enabled(ws[i], steps[i]) && SuccessType(ws[i], steps[i]) == Some(t)
  }

  /** The refresh of the last success of this type failed. */
  predicate Stale(ws: seq<World>, steps: seq<Step>, oks: seq<bool>, n: nat, t: string)
    requires |ws| == |steps| + 1 && |oks| == |steps| && n < |ws|
  {
    n > 0 && if SucceedsAt(ws, steps, n - 1, t) then !oks[n - 1] else Stale(ws, steps, oks, n - 1, t)
  }

  /** Through every permitted run, whichever refreshes fail: unless the refresh of a type's last success failed,
      its stored aggregate equals recomputation over the newest at most thirty successful runs of the type. */
  lemma {:induction false} CacheStaysCoherent(ws: seq<World>, steps: seq<Step>, caches: seq<Cache>, oks: seq<bool>,
                                              agg: seq<Sample> -> Estimate, n: nat, t: string)
    requires IsPermittedRun(ws, steps) && CachesFollow(ws, steps, caches, oks, agg) && n < |ws|
    requires !Stale(ws, steps, oks, n, t)
    ensures CoherentFor(caches[n], ws[n].rows, agg, t)
  {
    if n == 0 {
      assert ws[0].rows == [];
    } else {
      var w, step := ws[n - 1], steps[n - 1];
      GovernedHolds(ws, steps, n - 1);
      assert StepAt(ws, steps, n - 1) && CacheAt(ws, steps, caches, oks, agg, n - 1);
      if SuccessType(w, step) == Some(t) {
        RefreshHeals(w, step, caches[n - 1], agg, t);
      } else {
        CacheStaysCoherent(ws, steps, caches, oks, agg, n - 1, t);
        OtherWindowsKept(w, step, t);
        StoredElsewhereKept(w, step, caches[n - 1], agg, t);
        CoherenceCarries(caches[n - 1], caches[n], w.rows, ws[n].rows, agg, t);
      }
    }
  }

  lemma {:induction false} CoherenceCarries(cache: Cache, cache': Cache, rows: seq<Row>, later: seq<Row>,
                                            agg: seq<Sample> -> Estimate, t: string)
    requires CoherentFor(cache, rows, agg, t)
    requires Window(later, t) == Window(rows, t) && Lookup(cache', t) == Lookup(cache, t)
    ensures CoherentFor(cache', later, agg, t)
  {
  }

  /** While no run of a type succeeds, its stored aggregate does not change. */
  lemma {:induction false} AggregateKept(ws: seq<World>, steps: seq<Step>, caches: seq<Cache>, oks: seq<bool>,
                                         agg: seq<Sample> -> Estimate, a: nat, n: nat, t: string)
    requires IsRun(ws, steps) && CachesFollow(ws, steps, caches, oks, agg) && a <= n < |ws|
    requires forall i | a <= i < n :: !SucceedsAt(ws, steps, i, t)
    ensures Lookup(caches[n], t) == Lookup(caches[a], t)
  {
    for i := a to n
      invariant Lookup(caches[i], t) == Lookup(caches[a], t)
    {
      assert StepAt(ws, steps, i) && CacheAt(ws, steps, caches, oks, agg, i) && !SucceedsAt(ws, steps, i, t);
      StoredElsewhereKept(ws[i], steps[i], caches[i], agg, t);
    }
  }

  // ---- Refreshes that overlap -----------------------------------------------------------------

  lemma {:induction false} WindowKept(ws: seq<World>, steps: seq<Step>, a: nat, n: nat, t: string)
    requires IsPermittedRun(ws, steps) && a <= n < |ws| && forall i | a <= i < n :: !SucceedsAt(ws, steps, i, t)
    ensures Window(ws[n].rows, t) == Window(ws[a].rows, t)
    decreases n
  {
    if a < n {
      WindowKept(ws, steps, a, n - 1, t);
      assert !SucceedsAt(ws, steps, n - 1, t);
      WindowKeptOnce(ws, steps, n - 1, t);
    }
  }

  lemma WindowKeptOnce(ws: seq<World>, steps: seq<Step>, i: nat, t: string)
    requires IsPermittedRun(ws, steps) && i < |steps| && !SucceedsAt(ws, steps, i, t)
    ensures Window(ws[i + 1].rows, t) == Window(ws[i].rows, t)
  {
    GovernedHolds(ws, steps, i);
    assert StepAt(ws, steps, i);
    OtherWindowsKept(ws[i], steps[i], t);
  }

  /** A refresh on its own: it reads the table in one state and stores in a later one. */
  datatype LateRefresh = LateRefresh(taskType: string, readAt: nat, storedAt: nat)

  /** The refreshes in the order in which they store. */
  predicate WellTimed(rs: seq<LateRefresh>, n: nat) {
    && (forall i | 0 <= i < |rs| :: rs[i].readAt <= rs[i].storedAt < n)
    && (forall i, j | 0 <= i < j < |rs| :: rs[i].storedAt <= rs[j].storedAt)
  }

  /** The refresh has stored something for this type by state `n`; one that read no sample stores nothing. */
  predicate StoresBy(ws: seq<World>, r: LateRefresh, n: nat, t: string)
    requires r.readAt < |ws|
  {
    r.taskType == t && r.storedAt <= n && Window(ws[r.readAt].rows, t) != []
  }

  /** The last of the first `m` refreshes that has stored for this type by state `n`. */
  function LastStore(ws: seq<World>, rs: seq<LateRefresh>, m: nat, n: nat, t: string): (r: Option<LateRefresh>)
    requires m <= |rs| && WellTimed(rs, |ws|)
    ensures r.Some? ==> r.value in rs && r.value.readAt < |ws| && StoresBy(ws, r.value, n, t)
    ensures r.Some? ==> forall i | 0 <= i < m && StoresBy(ws, rs[i], n, t) :: rs[i].storedAt <= r.value.storedAt
    ensures r.None? ==> forall i | 0 <= i < m :: !StoresBy(ws, rs[i], n, t)
  {
    if m == 0 then None
    else if StoresBy(ws, rs[m - 1], n, t) then Some(rs[m - 1])
    else LastStore(ws, rs, m - 1, n, t)
  }

  /** The aggregate found in state `n`: what the last refresh to store had read. */
  function StoredLate(ws: seq<World>, rs: seq<LateRefresh>, n: nat, t: string, agg: seq<Sample> -> Estimate)
    : Option<Estimate>
    requires WellTimed(rs, |ws|)
  {
    match LastStore(ws, rs, |rs|, n, t)
    case Some(r) => Some(agg(Window(ws[r.readAt].rows, t)))
    case None => None
  }

  /** Refreshes may overlap each other and any number of writes: the stored aggregate is right in state `n` as
      soon as the refresh that stored last read the table after the last success of its type. */
  lemma {:induction false} LastStoreDecides(ws: seq<World>, steps: seq<Step>, rs: seq<LateRefresh>,
                                            agg: seq<Sample> -> Estimate, n: nat, t: string)
    requires IsPermittedRun(ws, steps) && WellTimed(rs, |ws|) && n < |ws|
    requires LastStore(ws, rs, |rs|, n, t).Some?
    requires forall i | LastStore(ws, rs, |rs|, n, t).value.readAt <= i < n :: !SucceedsAt(ws, steps, i, t)
    ensures StoredLate(ws, rs, n, t, agg) == Some(agg(Window(ws[n].rows, t)))
  {
    WindowKept(ws, steps, LastStore(ws, rs, |rs|, n, t).value.readAt, n, t);
  }
}
