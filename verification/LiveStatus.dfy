/** What a client of the event stream ends up showing: the route subscribes before it queries the catch-up, so
    once the receiver has caught up, the last frame of a task carries its newest persisted status, provided
    statuses of that task are announced in the order in which they were written. */
module LiveStatus {
  import opened Options
  import opened Statuses
  import opened RunTable
  import opened Protocol
  import opened ProtocolSafety
  import opened Discipline
  import opened DisciplineSafety
  import opened Backfill
  import opened Timing
  import opened Catchup
  import Stream = SseStream

  // ---- Which step wrote a row -----------------------------------------------------------------

  /** The step inserts row `k` or writes its status. */
  predicate Touches(w: World, step: Step, k: nat)
    requires Enabled(w, step)
  {
    && k < |Next(w, step).rows|
    && (k < |w.rows| ==> WriteOf(w, step).Some? && WriteOf(w, step).value.0 == w.rows[k].run.runId)
  }

  predicate TouchesAt(ws: seq<World>, steps: seq<Step>, i: nat, k: nat)
    requires |ws| == |steps| + 1 && i < |steps|
  {
    Enabled(ws[i], steps[i]) && Touches(ws[i], steps[i], k)
  }

  /** ... and the row is one of this task. */
  predicate TouchesTaskAt(ws: seq<World>, steps: seq<Step>, i: nat, k: nat, logicalId: string)
    requires |ws| == |steps| + 1 && i < |steps|
  {
    TouchesAt(ws, steps, i, k) && k < |ws[i + 1].rows| && ws[i + 1].rows[k].run.logicalId == logicalId
  }

  lemma TouchesOne(w: World, step: Step, j: nat, k: nat)
    requires UniqueIds(w.rows) && Enabled(w, step) && Touches(w, step, j) && Touches(w, step, k)
    ensures j == k
  {
    TableEffect(w, step);
  }

  lemma UntouchedStays(w: World, step: Step, k: nat)
    requires Enabled(w, step) && k < |w.rows| && !Touches(w, step, k)
    ensures k < |Next(w, step).rows| && Next(w, step).rows[k] == w.rows[k]
  {
    TableEffect(w, step);
  }

  /** A row after which there is none of its task is the latest of its task. */
  lemma LastRowIsLatest(rows: seq<Row>, k: nat)
    requires Ordinals(rows) && k < |rows|
    requires forall j | k < j < |rows| :: rows[j].run.logicalId != rows[k].run.logicalId
    ensures LatestRun(rows, rows[k].run.logicalId) == Some(rows[k])
  {
    var latest := LatestRun(rows, rows[k].run.logicalId).value;
    var j :| 0 <= j < |rows| && rows[j] == latest;
    if j < k {
      LaterRowsCountHigher(rows, j, k);
    }
  }

  /** Under E1-E3 only the latest run of a task is ever written. */
  lemma TouchedIsLatest(ws: seq<World>, steps: seq<Step>, i: nat, k: nat)
    requires IsPermittedRun(ws, steps) && i < |steps| && TouchesAt(ws, steps, i, k)
    ensures k < |ws[i + 1].rows|
    ensures LatestRun(ws[i + 1].rows, ws[i + 1].rows[k].run.logicalId) == Some(ws[i + 1].rows[k])
  {
    assert StepAt(ws, steps, i);
    GovernedHolds(ws, steps, i);
    InvariantHolds(ws, steps, i + 1);
    NothingAfterTouched(ws[i], steps[i], k);
    LastRowIsLatest(ws[i + 1].rows, k);
  }

  lemma NothingAfterTouched(w: World, step: Step, k: nat)
    requires WorkersOk(w) && HoldersOk(w) && OlderSettled(w.rows) && Enabled(w, step) && Touches(w, step, k)
    ensures forall j | k < j < |Next(w, step).rows| ::
      Next(w, step).rows[j].run.logicalId != Next(w, step).rows[k].run.logicalId
  {
    TableEffect(w, step);
    if k < |w.rows| {
      StepWritesLawfully(w, step);
      WritesLandInFlight(w, WriteOf(w, step).value.0, WriteOf(w, step).value.1, k);
    }
  }

  /** The rows of the task are the same in both tables. */
  predicate SameRuns(rows: seq<Row>, later: seq<Row>, logicalId: string) {
    |rows| <= |later| && forall k | 0 <= k < |later| :: SameRunAt(rows, later, logicalId, k)
  }

  predicate SameRunAt(rows: seq<Row>, later: seq<Row>, logicalId: string, k: nat)
    requires k < |later|
  {
    later[k].run.logicalId == logicalId || (k < |rows| && rows[k].run.logicalId == logicalId) ==>
      k < |rows| && later[k] == rows[k]
  }

  lemma SameRunsSameLatest(rows: seq<Row>, later: seq<Row>, logicalId: string)
    requires Ordinals(later) && SameRuns(rows, later, logicalId)
    ensures LatestRun(later, logicalId) == LatestRun(rows, logicalId)
  {
    if LatestRun(rows, logicalId).Some? {
      var j :| 0 <= j < |rows| && rows[j] == LatestRun(rows, logicalId).value;
      assert SameRunAt(rows, later, logicalId, j) && later[j].run.logicalId == logicalId;
    }
    if LatestRun(later, logicalId).Some? {
      var k :| 0 <= k < |later| && later[k] == LatestRun(later, logicalId).value;
      assert SameRunAt(rows, later, logicalId, k) && rows[k].run.logicalId == logicalId;
      var j :| 0 <= j < |rows| && rows[j] == LatestRun(rows, logicalId).value;
      assert SameRunAt(rows, later, logicalId, j);
      if j < k {
        LaterRowsCountHigher(later, j, k);
      } else if k < j {
        LaterRowsCountHigher(later, k, j);
      }
    }
  }

  /** No step from state `a` up to state `n` touches the task. */
  predicate Quiet(ws: seq<World>, steps: seq<Step>, a: nat, n: nat, logicalId: string)
    requires |ws| == |steps| + 1 && a <= n < |ws|
  {
    forall i, k | a <= i < n && 0 <= k < |ws[i + 1].rows| :: !TouchesTaskAt(ws, steps, i, k, logicalId)
  }

  lemma {:induction false} QuietKeepsRuns(ws: seq<World>, steps: seq<Step>, a: nat, n: nat, logicalId: string)
    requires IsRun(ws, steps) && a <= n < |ws| && Quiet(ws, steps, a, n, logicalId)
    ensures SameRuns(ws[a].rows, ws[n].rows, logicalId)
    decreases n
  {
    if a < n {
      QuietKeepsRuns(ws, steps, a, n - 1, logicalId);
      QuietStep(ws, steps, n - 1, logicalId);
      SameRunsTransitive(ws[a].rows, ws[n - 1].rows, ws[n].rows, logicalId);
    }
  }

  lemma SameRunsTransitive(a: seq<Row>, b: seq<Row>, c: seq<Row>, logicalId: string)
    requires SameRuns(a, b, logicalId) && SameRuns(b, c, logicalId)
    ensures SameRuns(a, c, logicalId)
  {
    forall k | 0 <= k < |c| ensures SameRunAt(a, c, logicalId, k) {
      assert SameRunAt(b, c, logicalId, k);
      if k < |b| {
        assert SameRunAt(a, b, logicalId, k);
      }
    }
  }

  lemma QuietStep(ws: seq<World>, steps: seq<Step>, i: nat, logicalId: string)
    requires IsRun(ws, steps) && i < |steps|
    requires forall k | 0 <= k < |ws[i + 1].rows| :: !TouchesTaskAt(ws, steps, i, k, logicalId)
    ensures SameRuns(ws[i].rows, ws[i + 1].rows, logicalId)
  {
    RowsPersistOnce(ws, steps, i);
    var rows, later := ws[i].rows, ws[i + 1].rows;
    forall k | 0 <= k < |later| ensures SameRunAt(rows, later, logicalId, k) {
      assert !TouchesTaskAt(ws, steps, i, k, logicalId);
      if later[k].run.logicalId == logicalId {
        QuietRow(ws, steps, i, k, logicalId);
      }
    }
  }

  lemma QuietRow(ws: seq<World>, steps: seq<Step>, i: nat, k: nat, logicalId: string)
    requires IsRun(ws, steps) && i < |steps| && k < |ws[i + 1].rows|
    requires ws[i + 1].rows[k].run.logicalId == logicalId && !TouchesTaskAt(ws, steps, i, k, logicalId)
    ensures k < |ws[i].rows| && ws[i + 1].rows[k] == ws[i].rows[k]
  {
    assert StepAt(ws, steps, i);
    if k < |ws[i].rows| {
      UntouchedStays(ws[i], steps[i], k);
    }
  }

  lemma QuietKeepsLatest(ws: seq<World>, steps: seq<Step>, a: nat, n: nat, logicalId: string)
    requires IsRun(ws, steps) && a <= n < |ws| && Quiet(ws, steps, a, n, logicalId)
    ensures LatestRun(ws[n].rows, logicalId) == LatestRun(ws[a].rows, logicalId)
  {
    QuietKeepsRuns(ws, steps, a, n, logicalId);
    InvariantHolds(ws, steps, n);
    SameRunsSameLatest(ws[a].rows, ws[n].rows, logicalId);
  }

  // ---- Announcements --------------------------------------------------------------------------

  /** One broadcast: the row a step wrote, with the estimate looked up then. */
  datatype Publication = Publication(step: nat, row: nat, estimate: Option<Estimate>)

  predicate PublicationOk(ws: seq<World>, steps: seq<Step>, p: Publication, n: nat)
    requires |ws| == |steps| + 1 && n < |ws|
  {
    p.step < n && TouchesAt(ws, steps, p.step, p.row) && p.row < |ws[p.step + 1].rows|
  }

  predicate About(ws: seq<World>, p: Publication, logicalId: string) {
    p.step + 1 < |ws| && p.row < |ws[p.step + 1].rows| && ws[p.step + 1].rows[p.row].run.logicalId == logicalId
  }

  /** The event carries everything of the row but the estimate. */
  predicate Carries(update: Update, row: Row) {
    FromRow(row, None) == Some(update.(estimateMs := None))
  }

  /** The broadcasts since subscription are these publications. */
  predicate IsLog(ws: seq<World>, steps: seq<Step>, pubs: seq<Publication>, log: seq<Stream.Event>, n: nat)
    requires |ws| == |steps| + 1 && n < |ws|
  {
    |log| == |pubs| && forall j | 0 <= j < |pubs| :: LogAt(ws, steps, pubs[j], log[j], n)
  }

  predicate LogAt(ws: seq<World>, steps: seq<Step>, p: Publication, event: Stream.Event, n: nat)
    requires |ws| == |steps| + 1 && n < |ws|
  {
    && PublicationOk(ws, steps, p, n)
    && var row := ws[p.step + 1].rows[p.row];
       FromRow(row, p.estimate) == Some(event.update) && event.ownerId == Some(row.target.ownerId)
  }

  /** The statuses of the task are announced in the order in which they were written, and by state `n` all are:
      each is among the broadcasts since subscription in state `sub`, or it was announced before, and then it
      was written before `sub` and before every one announced since. */
  predicate AnnouncedInOrder(ws: seq<World>, steps: seq<Step>, pubs: seq<Publication>, sub: nat, n: nat,
                             logicalId: string)
    requires |ws| == |steps| + 1 && n < |ws|
  {
    && (forall i, j | 0 <= i < j < |pubs| && About(ws, pubs[i], logicalId) && About(ws, pubs[j], logicalId) ::
          pubs[i].step < pubs[j].step)
    && (forall i, k | 0 <= i < n && 0 <= k < |ws[i + 1].rows| && TouchesTaskAt(ws, steps, i, k, logicalId) ::
          Announced(ws, pubs, sub, i, logicalId))
  }

  predicate Announced(ws: seq<World>, pubs: seq<Publication>, sub: nat, i: nat, logicalId: string) {
    || (exists j | 0 <= j < |pubs| :: pubs[j].step == i)
    || (i < sub && forall j | 0 <= j < |pubs| && About(ws, pubs[j], logicalId) :: i < pubs[j].step)
  }

  // ---- The last frame -------------------------------------------------------------------------

  /** Position `f` holds the last event about the task. */
  predicate LastAbout(events: seq<Stream.Event>, f: nat, logicalId: string) {
    && f < |events| && events[f].update.logicalId == logicalId
    && forall g | f < g < |events| :: events[g].update.logicalId != logicalId
  }

  lemma {:induction false} ShareKeepsLast(log: seq<Stream.Event>, n: nat, user: int, j: nat, logicalId: string)
    returns (f: nat)
    requires j < n <= |log| && log[j].ownerId == Some(user) && log[j].update.logicalId == logicalId
    requires forall g | j < g < n :: log[g].update.logicalId != logicalId
    ensures LastAbout(Stream.OwnersShare(log, n, user), f, logicalId)
    ensures Stream.OwnersShare(log, n, user)[f] == log[j]
  {
    if j == n - 1 {
      f := |Stream.OwnersShare(log, n - 1, user)|;
    } else {
      f := ShareKeepsLast(log, n - 1, user, j, logicalId);
    }
  }

  lemma {:induction false} ShareHasNone(log: seq<Stream.Event>, n: nat, user: int, logicalId: string)
    requires n <= |log| && forall g | 0 <= g < n :: log[g].update.logicalId != logicalId
    ensures NoneAbout(Stream.OwnersShare(log, n, user), logicalId)
  {
    if n > 0 {
      ShareHasNone(log, n - 1, user, logicalId);
      assert log[n - 1].update.logicalId != logicalId;
    }
  }

  predicate NoneAbout(events: seq<Stream.Event>, logicalId: string) {
    forall g | 0 <= g < |events| :: events[g].update.logicalId != logicalId
  }

  /** The last event about the task carries this row. */
  predicate ShowsLast(events: seq<Stream.Event>, f: nat, logicalId: string, row: Option<Row>) {
    LastAbout(events, f, logicalId) && row.Some? && Carries(events[f].update, row.value)
  }

  lemma LastOfSecond(a: seq<Stream.Event>, b: seq<Stream.Event>, f: nat, logicalId: string, row: Option<Row>)
    requires ShowsLast(b, f, logicalId, row)
    ensures ShowsLast(a + b, |a| + f, logicalId, row)
  {
    assert (a + b)[|a| + f] == b[f];
  }

  lemma LastOfFirst(a: seq<Stream.Event>, b: seq<Stream.Event>, f: nat, logicalId: string, row: Option<Row>)
    requires ShowsLast(a, f, logicalId, row) && NoneAbout(b, logicalId)
    ensures ShowsLast(a + b, f, logicalId, row)
  {
    assert (a + b)[f] == a[f];
  }

  /** The state from which the last event about the task dates: after the write announced last since subscription,
      else the catch-up query in state `at`. */
  function SinceLast(ws: seq<World>, pubs: seq<Publication>, m: nat, at: nat, logicalId: string): nat
    requires m <= |pubs|
  {
    if m == 0 then at
    else if About(ws, pubs[m - 1], logicalId) then pubs[m - 1].step + 1
    else SinceLast(ws, pubs, m - 1, at, logicalId)
  }

  lemma {:induction false} LastPublication(ws: seq<World>, pubs: seq<Publication>, m: nat, at: nat, logicalId: string)
    returns (j: int)
    requires m <= |pubs|
    ensures j < m && (j >= 0 ==> About(ws, pubs[j], logicalId))
    ensures forall g | j < g < m && 0 <= g :: !About(ws, pubs[g], logicalId)
    ensures SinceLast(ws, pubs, m, at, logicalId) == if j >= 0 then pubs[j].step + 1 else at
  {
    j := -1;
    if m > 0 {
      if About(ws, pubs[m - 1], logicalId) {
        j := m - 1;
      } else {
        j := LastPublication(ws, pubs, m - 1, at, logicalId);
      }
    }
  }

  /** After the last announced write of the task nothing touches it. */
  lemma QuietAfterLast(ws: seq<World>, steps: seq<Step>, pubs: seq<Publication>, sub: nat, n: nat, logicalId: string,
                       j: nat)
    requires IsRun(ws, steps) && n < |ws| && j < |pubs| && About(ws, pubs[j], logicalId)
    requires forall g | 0 <= g < |pubs| :: PublicationOk(ws, steps, pubs[g], n)
    requires AnnouncedInOrder(ws, steps, pubs, sub, n, logicalId)
    requires forall g | j < g < |pubs| :: !About(ws, pubs[g], logicalId)
    ensures pubs[j].step < n && Quiet(ws, steps, pubs[j].step + 1, n, logicalId)
  {
    var t := pubs[j].step;
    forall i, k | t + 1 <= i < n && 0 <= k < |ws[i + 1].rows| ensures !TouchesTaskAt(ws, steps, i, k, logicalId) {
      if TouchesTaskAt(ws, steps, i, k, logicalId) {
        assert Announced(ws, pubs, sub, i, logicalId);
        var g := LaterPublication(ws, steps, pubs, sub, n, logicalId, j, i, k);
      }
    }
    assert PublicationOk(ws, steps, pubs[j], n);
  }

  lemma LaterPublication(ws: seq<World>, steps: seq<Step>, pubs: seq<Publication>, sub: nat, n: nat, logicalId: string,
                         j: nat, i: nat, k: nat)
    returns (g: nat)
    requires IsRun(ws, steps) && n < |ws| && j < |pubs| && About(ws, pubs[j], logicalId)
    requires forall g | 0 <= g < |pubs| :: PublicationOk(ws, steps, pubs[g], n)
    requires AnnouncedInOrder(ws, steps, pubs, sub, n, logicalId)
    requires pubs[j].step < i < n && TouchesTaskAt(ws, steps, i, k, logicalId) && Announced(ws, pubs, sub, i, logicalId)
    ensures j < g < |pubs| && About(ws, pubs[g], logicalId)
  {
    g :| 0 <= g < |pubs| && pubs[g].step == i;
    assert PublicationOk(ws, steps, pubs[g], n);
    assert StepAt(ws, steps, i);
    InvariantHolds(ws, steps, i);
    TouchesOne(ws[i], steps[i], k, pubs[g].row);
  }

  lemma CarriedBy(row: Row, estimate: Option<Estimate>, update: Update)
    requires FromRow(row, estimate) == Some(update)
    ensures Carries(update, row) && update.logicalId == row.run.logicalId
  {
  }

  lemma OthersNotAbout(ws: seq<World>, steps: seq<Step>, pubs: seq<Publication>, log: seq<Stream.Event>, n: nat,
                       logicalId: string, j: int)
    requires |ws| == |steps| + 1 && n < |ws| && IsLog(ws, steps, pubs, log, n)
    requires forall g | j < g < |pubs| && 0 <= g :: !About(ws, pubs[g], logicalId)
    ensures forall g | j < g < |log| && 0 <= g :: log[g].update.logicalId != logicalId
  {
    forall g | j < g < |log| && 0 <= g ensures log[g].update.logicalId != logicalId {
      assert LogAt(ws, steps, pubs[g], log[g], n) && !About(ws, pubs[g], logicalId);
      CarriedBy(ws[pubs[g].step + 1].rows[pubs[g].row], pubs[g].estimate, log[g].update);
    }
  }

  /** All rows of a wanted task belong to the owner. */
  lemma OwnersRow(ws: seq<World>, steps: seq<Step>, n: nat, k0: nat, q: Query, a: nat, k: nat)
    requires IsRun(ws, steps) && a <= n < |ws| && k0 < |ws[n].rows| && Wanted(ws[n].rows[k0], q)
    requires k < |ws[a].rows| && ws[a].rows[k].run.logicalId == ws[n].rows[k0].run.logicalId
    ensures Wanted(ws[a].rows[k], q)
  {
    RowsPersist(ws, steps, a, n);
    ReachableIsSound(ws, steps, n);
    SameTaskWanted(ws[n].rows, k0, k, q);
  }

  /** The catch-up list as events of the stream. */
  function CatchupFrames(updates: seq<Update>, owner: int): (r: seq<Stream.Event>)
    ensures |r| == |updates| && forall i | 0 <= i < |r| :: r[i] == Stream.Event(Some(owner), updates[i])
  {
    seq(|updates|, i requires 0 <= i < |updates| => Stream.Event(Some(owner), updates[i]))
  }

  lemma QuietSince(ws: seq<World>, steps: seq<Step>, pubs: seq<Publication>, sub: nat, at: nat, n: nat,
                   logicalId: string)
    requires IsRun(ws, steps) && sub <= at <= n < |ws|
    requires forall g | 0 <= g < |pubs| :: PublicationOk(ws, steps, pubs[g], n)
    requires AnnouncedInOrder(ws, steps, pubs, sub, n, logicalId)
    requires forall g | 0 <= g < |pubs| :: !About(ws, pubs[g], logicalId)
    ensures Quiet(ws, steps, at, n, logicalId)
  {
    forall i, k | at <= i < n && 0 <= k < |ws[i + 1].rows| ensures !TouchesTaskAt(ws, steps, i, k, logicalId) {
      if TouchesTaskAt(ws, steps, i, k, logicalId) {
        assert Announced(ws, pubs, sub, i, logicalId);
        UnannouncedIsEarlier(ws, steps, pubs, sub, n, logicalId, i, k);
      }
    }
  }

  lemma UnannouncedIsEarlier(ws: seq<World>, steps: seq<Step>, pubs: seq<Publication>, sub: nat, n: nat,
                             logicalId: string, i: nat, k: nat)
    requires IsRun(ws, steps) && i < n < |ws| && forall g | 0 <= g < |pubs| :: PublicationOk(ws, steps, pubs[g], n)
    requires TouchesTaskAt(ws, steps, i, k, logicalId) && Announced(ws, pubs, sub, i, logicalId)
    requires forall g | 0 <= g < |pubs| :: !About(ws, pubs[g], logicalId)
    ensures i < sub
  {
    if g :| 0 <= g < |pubs| && pubs[g].step == i {
      assert PublicationOk(ws, steps, pubs[g], n) && !About(ws, pubs[g], logicalId);
      assert StepAt(ws, steps, i);
      InvariantHolds(ws, steps, i);
      TouchesOne(ws[i], steps[i], k, pubs[g].row);
    }
  }

  lemma {:induction false} CatchupFrameOf(rows: seq<Row>, q: Query, result: seq<Row>,
                                          lookup: string -> Option<Estimate>, k: nat)
    returns (f: nat)
    requires Sound(rows) && IsLatestPerGroup(rows, q, result) && k < |rows| && Wanted(rows[k], q)
    requires LatestRun(rows, rows[k].run.logicalId) == Some(rows[k])
    ensures var frames := CatchupFrames(Events(result, |result|, lookup), q.owner);
      LastAbout(frames, f, rows[k].run.logicalId) && Carries(frames[f].update, rows[k])
  {
    f := GroupHasOneLeader(rows, q, result, k);
    ResultCodesKnown(rows, q, result);
    OneEventPerRow(result, |result|, lookup);
    var frames := CatchupFrames(Events(result, |result|, lookup), q.owner);
    forall g | 0 <= g < |frames| ensures frames[g].update.logicalId == result[g].run.logicalId {
      assert Replay(result[g], lookup) == Some(frames[g].update);
    }
    assert Replay(result[f], lookup) == Some(frames[f].update);
    forall g | f < g < |frames| ensures frames[g].update.logicalId != rows[k].run.logicalId {
      OtherGroup(rows, q, result, k, g);
    }
  }

  lemma OtherGroup(rows: seq<Row>, q: Query, result: seq<Row>, k: nat, g: nat)
    requires Sound(rows) && IsLatestPerGroup(rows, q, result) && k < |rows| && Wanted(rows[k], q) && g < |result|
    requires !SameGroup(rows[k], result[g])
    ensures result[g].run.logicalId != rows[k].run.logicalId
  {
    assert LeadsGroup(rows, q, result[g]);
    var j :| 0 <= j < |rows| && rows[j] == result[g];
    SameGroupSameTask(rows, k, j, q);
  }

  // ---- No two writes look the same ------------------------------------------------------------

  /** How far a run has come: every status write raises it. */
  function Progress(row: Row): int {
    2 * row.attempts + if HasStatus(row, Queued) || HasStatus(row, InProgress) then 0 else 1
  }

  lemma CarriesSame(update: Update, a: Row, b: Row)
    requires Carries(update, a) && Carries(update, b)
    ensures a.run.runNumber == b.run.runNumber && Progress(a) == Progress(b)
  {
  }

  lemma TouchRaises(w: World, step: Step, k: nat)
    requires RowsOk(w) && WorkersOk(w) && HoldersOk(w) && Enabled(w, step) && k < |w.rows|
    ensures k < |Next(w, step).rows| && Progress(Next(w, step).rows[k]) >= Progress(w.rows[k])
    ensures Touches(w, step, k) ==> Progress(Next(w, step).rows[k]) > Progress(w.rows[k])
  {
    TableEffect(w, step);
    if Touches(w, step, k) {
      StepWritesLawfully(w, step);
      WriteRaises(w, k, WriteOf(w, step).value.0, WriteOf(w, step).value.1, step.now);
    } else {
      UntouchedStays(w, step, k);
    }
  }

  lemma WriteRaises(w: World, k: nat, id: nat, write: StatusWrite, now: int)
    requires k < |w.rows| && RowOk(w, w.rows[k]) && w.rows[k].run.runId == id && LawfulWrite(w, id, write)
    ensures Progress(Apply(w.rows[k], write, now)) > Progress(w.rows[k])
  {
  }

  /** A row's progress never falls, and rises with every write. */
  lemma {:induction false} ProgressRises(ws: seq<World>, steps: seq<Step>, a: nat, n: nat, k: nat, i: nat)
    requires IsPermittedRun(ws, steps) && a <= n < |ws| && k < |ws[a].rows|
    ensures k < |ws[n].rows| && Progress(ws[n].rows[k]) >= Progress(ws[a].rows[k])
    ensures a <= i < n && TouchesAt(ws, steps, i, k) ==> Progress(ws[n].rows[k]) > Progress(ws[a].rows[k])
    decreases n
  {
    if a < n {
      ProgressRises(ws, steps, a, n - 1, k, i);
      TouchRaisesAt(ws, steps, n - 1, k);
    }
  }

  lemma TouchRaisesAt(ws: seq<World>, steps: seq<Step>, i: nat, k: nat)
    requires IsPermittedRun(ws, steps) && i < |steps| && k < |ws[i].rows|
    ensures k < |ws[i + 1].rows| && Progress(ws[i + 1].rows[k]) >= Progress(ws[i].rows[k])
    ensures TouchesAt(ws, steps, i, k) ==> Progress(ws[i + 1].rows[k]) > Progress(ws[i].rows[k])
  {
    GovernedHolds(ws, steps, i);
    assert StepAt(ws, steps, i);
    TouchRaises(ws[i], steps[i], k);
  }

  /** Once the task is touched, its latest run no longer looks as it did. */
  lemma TouchedLooksDifferent(ws: seq<World>, steps: seq<Step>, a: nat, n: nat, logicalId: string, k: nat,
                              update: Update)
    requires IsPermittedRun(ws, steps) && a <= n < |ws| && !Quiet(ws, steps, a, n, logicalId)
    requires k < |ws[a].rows| && LatestRun(ws[a].rows, logicalId) == Some(ws[a].rows[k])
    requires Carries(update, ws[a].rows[k])
    ensures LatestRun(ws[n].rows, logicalId).Some? ==> !Carries(update, LatestRun(ws[n].rows, logicalId).value)
  {
    var latest := LatestRun(ws[n].rows, logicalId);
    if latest.Some? && Carries(update, latest.value) {
      CarriesSame(update, ws[a].rows[k], latest.value);
      StillLatestHasRisen(ws, steps, a, n, logicalId, k);
    }
  }

  /** If a touched task still has the same latest run, that run has risen. */
  lemma StillLatestHasRisen(ws: seq<World>, steps: seq<Step>, a: nat, n: nat, logicalId: string, k: nat)
    requires IsPermittedRun(ws, steps) && a <= n < |ws| && !Quiet(ws, steps, a, n, logicalId)
    requires k < |ws[a].rows| && ws[a].rows[k].run.logicalId == logicalId && LatestRun(ws[n].rows, logicalId).Some?
    requires LatestRun(ws[n].rows, logicalId).value.run.runNumber == ws[a].rows[k].run.runNumber
    ensures Progress(LatestRun(ws[n].rows, logicalId).value) > Progress(ws[a].rows[k])
  {
    LatestIsRow(ws, steps, a, n, logicalId, k);
    var i, j :| a <= i < n && 0 <= j < |ws[i + 1].rows| && TouchesTaskAt(ws, steps, i, j, logicalId);
    RowsPersist(ws, steps, a, i);
    TouchedIsStillLatest(ws, steps, i, j, n, logicalId, k);
    ProgressRises(ws, steps, a, n, k, i);
  }

  lemma LatestIsRow(ws: seq<World>, steps: seq<Step>, a: nat, n: nat, logicalId: string, k: nat)
    requires IsRun(ws, steps) && a <= n < |ws|
    requires k < |ws[a].rows| && ws[a].rows[k].run.logicalId == logicalId && LatestRun(ws[n].rows, logicalId).Some?
    requires LatestRun(ws[n].rows, logicalId).value.run.runNumber == ws[a].rows[k].run.runNumber
    ensures k < |ws[n].rows| && LatestRun(ws[n].rows, logicalId) == Some(ws[n].rows[k])
  {
    var m :| 0 <= m < |ws[n].rows| && ws[n].rows[m] == LatestRun(ws[n].rows, logicalId).value;
    RowsPersist(ws, steps, a, n);
    InvariantHolds(ws, steps, n);
    SameOrdinalSameRow(ws[n].rows, k, m);
  }

  lemma SameOrdinalSameRow(rows: seq<Row>, j: nat, k: nat)
    requires Ordinals(rows) && j < |rows| && k < |rows|
    requires rows[j].run.logicalId == rows[k].run.logicalId && rows[j].run.runNumber == rows[k].run.runNumber
    ensures j == k
  {
    if j < k {
      LaterRowsCountHigher(rows, j, k);
    } else if k < j {
      LaterRowsCountHigher(rows, k, j);
    }
  }

  /** If row `k` is the latest of the task in state `n` and was there when the task was touched, it was touched. */
  lemma TouchedIsStillLatest(ws: seq<World>, steps: seq<Step>, i: nat, j: nat, n: nat, logicalId: string, k: nat)
    requires IsPermittedRun(ws, steps) && i < n < |ws| && TouchesTaskAt(ws, steps, i, j, logicalId)
    requires k < |ws[i].rows| && k < |ws[n].rows| && LatestRun(ws[n].rows, logicalId) == Some(ws[n].rows[k])
    ensures j == k
  {
    TouchedIsLatest(ws, steps, i, j);
    RowsPersistOnce(ws, steps, i);
    LatestTwice(ws, steps, i + 1, n, logicalId, j, k);
  }

  lemma LatestTwice(ws: seq<World>, steps: seq<Step>, a: nat, n: nat, logicalId: string, j: nat, k: nat)
    requires IsRun(ws, steps) && a <= n < |ws| && j < |ws[a].rows| && k < |ws[a].rows| && k < |ws[n].rows|
    requires LatestRun(ws[a].rows, logicalId) == Some(ws[a].rows[j])
    requires LatestRun(ws[n].rows, logicalId) == Some(ws[n].rows[k])
    ensures j == k
  {
    RowsPersist(ws, steps, a, n);
    InvariantHolds(ws, steps, n);
    LatestInBoth(ws[a].rows, ws[n].rows, logicalId, j, k);
  }

  lemma LatestInBoth(rows: seq<Row>, later: seq<Row>, logicalId: string, j: nat, k: nat)
    requires Extends(rows, later) && Ordinals(later) && j < |rows| && k < |rows|
    requires LatestRun(rows, logicalId) == Some(rows[j]) && LatestRun(later, logicalId) == Some(later[k])
    ensures j == k
  {
    assert later[j].run == rows[j].run && later[k].run == rows[k].run;
    SameOrdinalSameRow(later, j, k);
  }

  // ---- The newest status, exactly -------------------------------------------------------------

  predicate ShowsNewest(events: seq<Stream.Event>, logicalId: string, row: Option<Row>) {
    exists f | 0 <= f < |events| :: ShowsLast(events, f, logicalId, row)
  }

  lemma LastAboutIsUnique(events: seq<Stream.Event>, f: nat, logicalId: string, row: Option<Row>)
    requires LastAbout(events, f, logicalId)
    ensures ShowsNewest(events, logicalId, row) <==> ShowsLast(events, f, logicalId, row)
  {
  }

  lemma NoneShowsNothing(events: seq<Stream.Event>, logicalId: string, row: Option<Row>)
    requires NoneAbout(events, logicalId)
    ensures !ShowsNewest(events, logicalId, row)
  {
  }

  /** What the caught-up client shows of a task: the latest run as of the last event about it, or nothing. */
  predicate LooksAsOf(events: seq<Stream.Event>, logicalId: string, rows: seq<Row>) {
    match LatestRun(rows, logicalId)
    case None => NoneAbout(events, logicalId)
    case Some(row) => ShowsNewest(events, logicalId, Some(row))
  }

  /** The last announcement since subscription decides, if there is one. */
  lemma LooksAsAnnounced(ws: seq<World>, steps: seq<Step>, pubs: seq<Publication>, log: seq<Stream.Event>, n: nat,
                         q: Query, k0: nat, j: nat, catchup: seq<Stream.Event>)
    requires IsPermittedRun(ws, steps) && n < |ws| && IsLog(ws, steps, pubs, log, n)
    requires k0 < |ws[n].rows| && Wanted(ws[n].rows[k0], q)
    requires j < |pubs| && About(ws, pubs[j], ws[n].rows[k0].run.logicalId)
    requires forall g | j < g < |pubs| :: !About(ws, pubs[g], ws[n].rows[k0].run.logicalId)
    ensures pubs[j].step + 1 <= n
    ensures LooksAsOf(catchup + Stream.OwnersShare(log, |log|, q.owner), ws[n].rows[k0].run.logicalId,
              ws[pubs[j].step + 1].rows)
  {
    var logicalId := ws[n].rows[k0].run.logicalId;
    var row := AnnouncedRow(ws, steps, pubs, log, n, q, k0, j);
    OthersNotAbout(ws, steps, pubs, log, n, logicalId, j);
    var f := ShareKeepsLast(log, |log|, q.owner, j, logicalId);
    LastOfSecond(catchup, Stream.OwnersShare(log, |log|, q.owner), f, logicalId, Some(row));
  }

  lemma AnnouncedRow(ws: seq<World>, steps: seq<Step>, pubs: seq<Publication>, log: seq<Stream.Event>, n: nat, q: Query,
                     k0: nat, j: nat)
    returns (row: Row)
    requires IsPermittedRun(ws, steps) && n < |ws| && IsLog(ws, steps, pubs, log, n)
    requires k0 < |ws[n].rows| && Wanted(ws[n].rows[k0], q)
    requires j < |pubs| && About(ws, pubs[j], ws[n].rows[k0].run.logicalId)
    ensures pubs[j].step + 1 <= n
    ensures LatestRun(ws[pubs[j].step + 1].rows, ws[n].rows[k0].run.logicalId) == Some(row)
    ensures Carries(log[j].update, row) && log[j].ownerId == Some(q.owner)
    ensures log[j].update.logicalId == ws[n].rows[k0].run.logicalId
  {
    var t := pubs[j].step;
    assert LogAt(ws, steps, pubs[j], log[j], n);
    row := ws[t + 1].rows[pubs[j].row];
    TouchedIsLatest(ws, steps, t, pubs[j].row);
    CarriedBy(row, pubs[j].estimate, log[j].update);
    OwnersRow(ws, steps, n, k0, q, t + 1, pubs[j].row);
  }

  /** Without one the catch-up decides. */
  lemma {:induction false} LooksAsQueried(ws: seq<World>, steps: seq<Step>, at: nat, n: nat, q: Query,
                                          result: seq<Row>, lookup: string -> Option<Estimate>, k0: nat,
                                          share: seq<Stream.Event>)
    requires IsRun(ws, steps) && at <= n < |ws| && IsLatestPerGroup(ws[at].rows, q, result)
    requires k0 < |ws[n].rows| && Wanted(ws[n].rows[k0], q) && NoneAbout(share, ws[n].rows[k0].run.logicalId)
    ensures LooksAsOf(CatchupFrames(Events(result, |result|, lookup), q.owner) + share,
              ws[n].rows[k0].run.logicalId, ws[at].rows)
  {
    var logicalId := ws[n].rows[k0].run.logicalId;
    var catchup := CatchupFrames(Events(result, |result|, lookup), q.owner);
    ReachableIsSound(ws, steps, at);
    match LatestRun(ws[at].rows, logicalId)
    case None => CatchupHasNone(ws[at].rows, q, result, lookup, logicalId);
    case Some(row) =>
      var k :| 0 <= k < |ws[at].rows| && ws[at].rows[k] == row;
      OwnersRow(ws, steps, n, k0, q, at, k);
      var f := CatchupFrameOf(ws[at].rows, q, result, lookup, k);
      LastOfFirst(catchup, share, f, logicalId, Some(row));
  }

  lemma {:induction false} CatchupHasNone(rows: seq<Row>, q: Query, result: seq<Row>,
                                          lookup: string -> Option<Estimate>, logicalId: string)
    requires Sound(rows) && IsLatestPerGroup(rows, q, result) && LatestRun(rows, logicalId).None?
    ensures NoneAbout(CatchupFrames(Events(result, |result|, lookup), q.owner), logicalId)
  {
    ResultCodesKnown(rows, q, result);
    OneEventPerRow(result, |result|, lookup);
    var frames := CatchupFrames(Events(result, |result|, lookup), q.owner);
    forall g | 0 <= g < |frames| ensures frames[g].update.logicalId != logicalId {
      assert Replay(result[g], lookup) == Some(frames[g].update);
      assert LeadsGroup(rows, q, result[g]);
      var j :| 0 <= j < |rows| && rows[j] == result[g];
    }
  }

  lemma {:induction false} LooksAsOfLast(ws: seq<World>, steps: seq<Step>, pubs: seq<Publication>,
                                         log: seq<Stream.Event>, at: nat, n: nat, q: Query, result: seq<Row>,
                                         lookup: string -> Option<Estimate>, k0: nat)
    requires IsPermittedRun(ws, steps) && at <= n < |ws| && IsLog(ws, steps, pubs, log, n)
    requires IsLatestPerGroup(ws[at].rows, q, result) && k0 < |ws[n].rows| && Wanted(ws[n].rows[k0], q)
    ensures var logicalId := ws[n].rows[k0].run.logicalId; var a := SinceLast(ws, pubs, |pubs|, at, logicalId);
      var catchup := CatchupFrames(Events(result, |result|, lookup), q.owner);
      a <= n && LooksAsOf(catchup + Stream.OwnersShare(log, |log|, q.owner), logicalId, ws[a].rows)
  {
    var logicalId := ws[n].rows[k0].run.logicalId;
    var j := LastPublication(ws, pubs, |pubs|, at, logicalId);
    if j >= 0 {
      LooksAsAnnounced(ws, steps, pubs, log, n, q, k0, j, CatchupFrames(Events(result, |result|, lookup), q.owner));
    } else {
      OthersNotAbout(ws, steps, pubs, log, n, logicalId, -1);
      ShareHasNone(log, |log|, q.owner, logicalId);
      LooksAsQueried(ws, steps, at, n, q, result, lookup, k0, Stream.OwnersShare(log, |log|, q.owner));
    }
  }

  /** A client that shows a task as of state `a` shows its newest status in state `n` iff nothing has touched the
      task in between. */
  lemma NewestIffQuiet(ws: seq<World>, steps: seq<Step>, a: nat, n: nat, logicalId: string, events: seq<Stream.Event>)
    requires IsPermittedRun(ws, steps) && a <= n < |ws| && LooksAsOf(events, logicalId, ws[a].rows)
    requires LatestRun(ws[n].rows, logicalId).Some?
    ensures ShowsNewest(events, logicalId, LatestRun(ws[n].rows, logicalId)) <==> Quiet(ws, steps, a, n, logicalId)
  {
    if Quiet(ws, steps, a, n, logicalId) {
      QuietKeepsLatest(ws, steps, a, n, logicalId);
    }
    match LatestRun(ws[a].rows, logicalId)
    case None => NoneShowsNothing(events, logicalId, LatestRun(ws[n].rows, logicalId));
    case Some(row) =>
      var k :| 0 <= k < |ws[a].rows| && ws[a].rows[k] == row;
      var f :| 0 <= f < |events| && ShowsLast(events, f, logicalId, Some(row));
      LastAboutIsUnique(events, f, logicalId, LatestRun(ws[n].rows, logicalId));
      if !Quiet(ws, steps, a, n, logicalId) {
        TouchedLooksDifferent(ws, steps, a, n, logicalId, k, events[f].update);
      }
  }

  /** Once the receiver has caught up, the last frame about a wanted task carries its newest persisted status iff
      nothing has touched the task since the write that was announced last, or since the catch-up query if none
      was announced since subscription: in every run with well-behaved deliveries, for every interleaving of
      writes and announcements, lost and late ones included, with the stream's own steps. */
  lemma {:induction false} LastFrameIsNewestIff(ws: seq<World>, steps: seq<Step>, pubs: seq<Publication>, at: nat,
                                                n: nat, q: Query, result: seq<Row>,
                                                lookup: string -> Option<Estimate>, k0: nat,
                                                ss: seq<Stream.Stream>, moves: seq<Stream.Step>, m: nat)
    requires IsPermittedRun(ws, steps) && at <= n < |ws|
    requires IsLatestPerGroup(ws[at].rows, q, result) && k0 < |ws[n].rows| && Wanted(ws[n].rows[k0], q)
    requires Stream.IsRun(ss, moves) && m < |ss| && ss[m].userId == q.owner
    requires ss[m].catchup == CatchupFrames(Events(result, |result|, lookup), q.owner)
    requires ss[m].replayed == |ss[m].catchup| && ss[m].cursor == |ss[m].log|
    requires IsLog(ws, steps, pubs, ss[m].log, n)
    ensures var logicalId := ws[n].rows[k0].run.logicalId; var a := SinceLast(ws, pubs, |pubs|, at, logicalId);
      && a <= n
      && (ShowsNewest(Stream.StatusEvents(ss[m].frames), logicalId, LatestRun(ws[n].rows, logicalId))
          <==> Quiet(ws, steps, a, n, logicalId))
  {
    var logicalId := ws[n].rows[k0].run.logicalId;
    CaughtUpFrames(ss, moves, m);
    LooksAsOfLast(ws, steps, pubs, ss[m].log, at, n, q, result, lookup, k0);
    NewestIffQuiet(ws, steps, SinceLast(ws, pubs, |pubs|, at, logicalId), n, logicalId,
      Stream.StatusEvents(ss[m].frames));
  }

  /** What a receiver that has caught up has emitted. */
  lemma CaughtUpFrames(ss: seq<Stream.Stream>, moves: seq<Stream.Step>, m: nat)
    requires Stream.IsRun(ss, moves) && m < |ss|
    requires ss[m].replayed == |ss[m].catchup| && ss[m].cursor == |ss[m].log|
    ensures Stream.StatusEvents(ss[m].frames)
      == ss[m].catchup + Stream.OwnersShare(ss[m].log, |ss[m].log|, ss[m].userId)
  {
    Stream.StreamIsGapFree(ss, moves, m);
    assert ss[m].catchup[..|ss[m].catchup|] == ss[m].catchup;
  }

  /** Because the route subscribes in state `sub` before it queries in state `at`, announcing every write of the task
      in the order of the writes is enough. */
  lemma InOrderIsQuiet(ws: seq<World>, steps: seq<Step>, pubs: seq<Publication>, log: seq<Stream.Event>, sub: nat,
                       at: nat, n: nat, logicalId: string)
    requires IsRun(ws, steps) && sub <= at <= n < |ws| && IsLog(ws, steps, pubs, log, n)
    requires AnnouncedInOrder(ws, steps, pubs, sub, n, logicalId)
    ensures var a := SinceLast(ws, pubs, |pubs|, at, logicalId); a <= n && Quiet(ws, steps, a, n, logicalId)
  {
    LoggedIsOk(ws, steps, pubs, log, n);
    var j := LastPublication(ws, pubs, |pubs|, at, logicalId);
    if j >= 0 {
      QuietAfterLast(ws, steps, pubs, sub, n, logicalId, j);
    } else {
      QuietSince(ws, steps, pubs, sub, at, n, logicalId);
    }
  }

  lemma LoggedIsOk(ws: seq<World>, steps: seq<Step>, pubs: seq<Publication>, log: seq<Stream.Event>, n: nat)
    requires |ws| == |steps| + 1 && n < |ws| && IsLog(ws, steps, pubs, log, n)
    ensures forall g | 0 <= g < |pubs| :: PublicationOk(ws, steps, pubs[g], n)
  {
    forall g | 0 <= g < |pubs| ensures PublicationOk(ws, steps, pubs[g], n) {
      assert LogAt(ws, steps, pubs[g], log[g], n);
    }
  }
}
