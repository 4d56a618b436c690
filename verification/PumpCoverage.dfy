/** Pumps inside the protocol: the submissions of a pump are protocol submitters, interleaved in any way
    with each other and with everything else. Coverage, counts and series of pumps. */
module PumpCoverage {
  import opened Options
  import opened Tasks
  import opened RunTable
  import opened Protocol
  import opened ProtocolSafety
  import opened Discipline
  import opened Claims
  import opened Orders
  import opened Backfill

  // ---- A pump in a run of the protocol --------------------------------------------------------

  /** Selection happens in state `at`, the last answer is there in state `end`, and `subs[i]` is the
      submitter of target `batch[i]`. The code submits one target after the other; nothing here needs it. */
  datatype Pump = Pump(at: nat, end: nat, batch: seq<Candidate>, subs: seq<nat>)

  predicate Placed(p: Pump, n: nat) {
    p.at <= p.end < n && |p.subs| == |p.batch|
  }

  predicate SubmitsAt(ws: seq<World>, p: Pump, def: Definition, i: nat)
    requires Placed(p, |ws|) && i < |p.batch|
  {
    var s := p.subs[i];
    && s !in ws[p.at].submitters && s in ws[p.end].submitters && ws[p.end].submitters[s].phase.Answered?
    && ws[p.end].submitters[s].task == def.make(p.batch[i]) && ws[p.end].submitters[s].backfill == Some(def.id)
  }

  predicate IsPump(ws: seq<World>, p: Pump, def: Definition, cands: seq<Candidate>, limit: nat) {
    && Placed(p, |ws|)
    && p.batch == SelectTargets(ws[p.at].rows, def, cands, limit)
    && forall i | 0 <= i < |p.batch| :: SubmitsAt(ws, p, def, i)
  }

  /** Step `i` inserts a run for this backfill. */
  predicate ClaimsFor(ws: seq<World>, steps: seq<Step>, i: nat, def: Definition)
    requires |ws| == |steps| + 1 && i < |steps|
  {
    && AcceptedAt(ws, steps, i)
    && var run := InsertedRun(ws, steps, i);
       && run.backfillId == Some(def.id)
       && TargetOf(run.task).taskType == def.taskType && TargetOf(run.task).entityType == def.entityType
  }

  /** Between two states only these submitters insert runs for this backfill. */
  predicate Sole(ws: seq<World>, steps: seq<Step>, a: nat, n: nat, def: Definition, subs: seq<nat>)
    requires |ws| == |steps| + 1 && n < |ws|
  {
    forall i | a <= i < n :: ClaimsFor(ws, steps, i, def) ==> steps[i].s in subs
  }

  // ---- Tags and the inserts behind them -------------------------------------------------------

  lemma SameIdSameTarget(task: Task, task': Task)
    requires LogicalIdOf(task) == LogicalIdOf(task')
    ensures TargetOf(task) == TargetOf(task')
  {
    TargetsAreNamed(task);
    TargetsAreNamed(task');
    LogicalIdInjective(TargetOf(task), TargetOf(task'));
  }

  lemma InsertedRunIsKeyed(ws: seq<World>, steps: seq<Step>, i: nat)
    requires IsRun(ws, steps) && i < |steps| && AcceptedAt(ws, steps, i)
    ensures InsertedRun(ws, steps, i).logicalId == LogicalIdOf(InsertedRun(ws, steps, i).task)
  {
    KeyedHolds(ws, steps, i);
    assert SubmitterKeyed(ws[i].submitters[steps[i].s]);
  }

  /** An insert with the key of a target is an insert for the backfill, of exactly that target. */
  lemma KeyClaimsTarget(ws: seq<World>, steps: seq<Step>, i: nat, def: Definition, c: Candidate)
    requires IsRun(ws, steps) && i < |steps| && AcceptedAt(ws, steps, i) && Faithful(def)
    requires HasKey(InsertedRun(ws, steps, i), Some(def.id), LogicalIdOf(def.make(c)))
    ensures ClaimsFor(ws, steps, i, def) && TargetOf(InsertedRun(ws, steps, i).task) == TargetFor(def, c)
  {
    InsertedRunIsKeyed(ws, steps, i);
    SameIdSameTarget(InsertedRun(ws, steps, i).task, def.make(c));
    assert TargetOf(def.make(c)) == TargetFor(def, c);
  }

  lemma SubmittedIffKeyTaken(ws: seq<World>, steps: seq<Step>, n: nat, def: Definition, c: Candidate)
    requires IsRun(ws, steps) && n < |ws| && Faithful(def)
    ensures Submitted(ws[n].rows, def, c) <==> KeyTaken(ws[n].rows, Some(def.id), LogicalIdOf(def.make(c)))
  {
    KeyedHolds(ws, steps, n);
    ExclusionAgreesWithKey(ws[n].rows, def, c);
  }

  /** A target that becomes submitted was claimed in between. */
  lemma TagHasItsClaim(ws: seq<World>, steps: seq<Step>, a: nat, n: nat, def: Definition, c: Candidate) returns (i: nat)
    requires IsRun(ws, steps) && a <= n < |ws| && Faithful(def)
    requires !Submitted(ws[a].rows, def, c) && Submitted(ws[n].rows, def, c)
    ensures a <= i < n && ClaimsFor(ws, steps, i, def)
    ensures TargetOf(InsertedRun(ws, steps, i).task) == TargetFor(def, c)
  {
    SubmittedIffKeyTaken(ws, steps, a, def, c);
    SubmittedIffKeyTaken(ws, steps, n, def, c);
    i := KeyHasItsClaim(ws, steps, a, n, Some(def.id), LogicalIdOf(def.make(c)));
    KeyClaimsTarget(ws, steps, i, def, c);
  }

  lemma SubmittedStays(ws: seq<World>, steps: seq<Step>, a: nat, n: nat, def: Definition, c: Candidate)
    requires IsRun(ws, steps) && a <= n < |ws| && Faithful(def) && Submitted(ws[a].rows, def, c)
    ensures Submitted(ws[n].rows, def, c)
  {
    SubmittedIffKeyTaken(ws, steps, a, def, c);
    TakenKeysStay(ws, steps, a, n, Some(def.id), LogicalIdOf(def.make(c)));
    SubmittedIffKeyTaken(ws, steps, n, def, c);
  }

  /** A claim by a submitter of the pump is a claim of that submitter's target. */
  lemma ClaimsOwnTarget(ws: seq<World>, steps: seq<Step>, p: Pump, def: Definition, i: nat, j: nat)
    requires IsRun(ws, steps) && Placed(p, |ws|) && j < |p.batch| && SubmitsAt(ws, p, def, j) && Faithful(def)
    requires i < p.end && AcceptedAt(ws, steps, i) && steps[i].s == p.subs[j]
    ensures TargetOf(InsertedRun(ws, steps, i).task) == TargetFor(def, p.batch[j])
  {
    RequestsStay(ws, steps, i, p.end, steps[i].s);
    assert TargetOf(def.make(p.batch[j])) == TargetFor(def, p.batch[j]);
  }

  /** With no other submitter for the backfill, a pump makes no target submitted but those of its batch. */
  lemma NewTagIsOfBatch(ws: seq<World>, steps: seq<Step>, p: Pump, def: Definition, cands: seq<Candidate>, limit: nat,
                        c: Candidate)
    requires IsRun(ws, steps) && Faithful(def) && IsPump(ws, p, def, cands, limit)
    requires Sole(ws, steps, p.at, p.end, def, p.subs)
    requires !Submitted(ws[p.at].rows, def, c) && Submitted(ws[p.end].rows, def, c)
    ensures c in p.batch
  {
    var i := TagHasItsClaim(ws, steps, p.at, p.end, def, c);
    var j :| 0 <= j < |p.subs| && p.subs[j] == steps[i].s;
    assert SubmitsAt(ws, p, def, j);
    ClaimsOwnTarget(ws, steps, p, def, i, j);
    assert p.batch[j] == c;
  }

  // ---- Nothing is already submitted -----------------------------------------------------------

  function OutcomeOf(w: World, s: nat): Outcome
    requires s in w.submitters && w.submitters[s].phase.Answered?
  {
    w.submitters[s].phase.outcome
  }

  lemma SelectedIsFree(ws: seq<World>, steps: seq<Step>, p: Pump, def: Definition, cands: seq<Candidate>, limit: nat,
                       i: nat)
    requires IsRun(ws, steps) && Faithful(def) && Distinct(cands) && IsPump(ws, p, def, cands, limit) && i < |p.batch|
    ensures !Submitted(ws[p.at].rows, def, p.batch[i]) && Distinct(p.batch)
    ensures !KeyTaken(ws[p.at].rows, Some(def.id), LogicalIdOf(def.make(p.batch[i])))
  {
    SelectionIsForemostPending(ws[p.at].rows, def, cands, limit);
    assert p.batch[i] in Pending(ws[p.at].rows, def, cands);
    SubmittedIffKeyTaken(ws, steps, p.at, def, p.batch[i]);
  }

  /** If a pump is told that one of its targets was already submitted, then a submitter outside the pump
      inserted a run for this backfill while the pump was under way. */
  lemma AlreadyMeansRival(ws: seq<World>, steps: seq<Step>, p: Pump, def: Definition, cands: seq<Candidate>, limit: nat,
                          i: nat)
    returns (j: nat)
    requires IsRun(ws, steps) && Faithful(def) && Distinct(cands) && IsPump(ws, p, def, cands, limit) && i < |p.batch|
    requires SubmitsAt(ws, p, def, i) && OutcomeOf(ws[p.end], p.subs[i]).AlreadySubmitted?
    ensures p.at <= j < p.end && ClaimsFor(ws, steps, j, def) && steps[j].s !in p.subs
  {
    var s, c := p.subs[i], p.batch[i];
    SelectedIsFree(ws, steps, p, def, cands, limit, i);
    KeyedHolds(ws, steps, p.end);
    assert SubmitterKeyed(ws[p.end].submitters[s]);
    j := AlreadyHasARival(ws, steps, p.at, p.end, s);
    KeyClaimsTarget(ws, steps, j, def, c);
    ClaimantIsOutside(ws, steps, p, def, cands, limit, i, j);
  }

  /** A claim of target `i` by another submitter than `subs[i]` is by none of the pump's. */
  lemma ClaimantIsOutside(ws: seq<World>, steps: seq<Step>, p: Pump, def: Definition, cands: seq<Candidate>, limit: nat,
                          i: nat, j: nat)
    requires IsRun(ws, steps) && Faithful(def) && IsPump(ws, p, def, cands, limit) && Distinct(p.batch)
    requires i < |p.batch| && j < p.end && AcceptedAt(ws, steps, j) && steps[j].s != p.subs[i]
    requires TargetOf(InsertedRun(ws, steps, j).task) == TargetFor(def, p.batch[i])
    ensures steps[j].s !in p.subs
  {
    forall k | 0 <= k < |p.subs| ensures p.subs[k] != steps[j].s {
      assert SubmitsAt(ws, p, def, k);
      if p.subs[k] == steps[j].s {
        ClaimsOwnTarget(ws, steps, p, def, j, k);
      }
    }
  }

  /** Hence a pump with no concurrent submitter of its backfill never reports an already submitted target,
      whatever else runs between any two of its effects. */
  lemma NoneAlreadySubmitted(ws: seq<World>, steps: seq<Step>, p: Pump, def: Definition, cands: seq<Candidate>,
                             limit: nat, i: nat)
    requires IsRun(ws, steps) && Faithful(def) && Distinct(cands) && IsPump(ws, p, def, cands, limit) && i < |p.batch|
    requires Sole(ws, steps, p.at, p.end, def, p.subs)
    ensures SubmitsAt(ws, p, def, i) && !OutcomeOf(ws[p.end], p.subs[i]).AlreadySubmitted?
  {
    assert SubmitsAt(ws, p, def, i);
    if OutcomeOf(ws[p.end], p.subs[i]).AlreadySubmitted? {
      var j := AlreadyMeansRival(ws, steps, p, def, cands, limit, i);
    }
  }

  // ---- Coverage -------------------------------------------------------------------------------

  /** No submission of the pump is hindered: none stops before its insert, every run id is fresh, none reads a run
      of its task in flight, and no other run of its task is inserted between its read and its insert. */
  predicate AllUnhindered(ws: seq<World>, steps: seq<Step>, p: Pump)
    requires |ws| == |steps| + 1 && Placed(p, |ws|)
  {
    forall i | 0 <= i < |p.subs| :: p.subs[i] in ws[p.end].submitters && Unhindered(ws, steps, p.at, p.end, p.subs[i])
  }

  /** The submission of a target that nothing hinders leaves its tagged run, whether its enqueue is accepted,
      rejected or never reached. */
  lemma TargetGetsSubmitted(ws: seq<World>, steps: seq<Step>, p: Pump, def: Definition, i: nat)
    requires IsRun(ws, steps) && Faithful(def) && Placed(p, |ws|) && i < |p.batch| && SubmitsAt(ws, p, def, i)
    requires Unhindered(ws, steps, p.at, p.end, p.subs[i])
    ensures Submitted(ws[p.end].rows, def, p.batch[i])
  {
    var sub := ws[p.end].submitters[p.subs[i]];
    UnhinderedIsPresent(ws, steps, p.at, p.end, p.subs[i]);
    KeyedHolds(ws, steps, p.end);
    assert SubmitterKeyed(sub);
    var rows := ws[p.end].rows;
    var k :| 0 <= k < |rows| && rows[k].run.backfillId == sub.backfill && rows[k].run.logicalId == sub.logicalId;
    assert HasKey(rows[k].run, Some(def.id), LogicalIdOf(def.make(p.batch[i])));
    SubmittedIffKeyTaken(ws, steps, p.end, def, p.batch[i]);
  }

  lemma SubmittedAfterPump(ws: seq<World>, steps: seq<Step>, p: Pump, def: Definition, cands: seq<Candidate>,
                           limit: nat, c: Candidate)
    requires IsRun(ws, steps) && Faithful(def) && IsPump(ws, p, def, cands, limit)
    requires Sole(ws, steps, p.at, p.end, def, p.subs) && AllUnhindered(ws, steps, p)
    ensures Submitted(ws[p.end].rows, def, c) <==> Submitted(ws[p.at].rows, def, c) || c in p.batch
  {
    if Submitted(ws[p.at].rows, def, c) {
      SubmittedStays(ws, steps, p.at, p.end, def, c);
    } else if Submitted(ws[p.end].rows, def, c) {
      NewTagIsOfBatch(ws, steps, p, def, cands, limit, c);
    }
    if c in p.batch {
      var i :| 0 <= i < |p.batch| && p.batch[i] == c;
      assert SubmitsAt(ws, p, def, i);
      TargetGetsSubmitted(ws, steps, p, def, i);
    }
  }

  /** An unhindered pump submits exactly its batch: the pending set loses those targets and no other. */
  lemma PumpSubmitsItsBatch(ws: seq<World>, steps: seq<Step>, p: Pump, def: Definition, cands: seq<Candidate>,
                            limit: nat)
    requires IsRun(ws, steps) && Faithful(def) && Distinct(cands) && IsPump(ws, p, def, cands, limit)
    requires Sole(ws, steps, p.at, p.end, def, p.subs) && AllUnhindered(ws, steps, p)
    ensures var before, after := Pending(ws[p.at].rows, def, cands), Pending(ws[p.end].rows, def, cands);
      && after == before - (set c | c in p.batch)
      && |after| == if |before| <= limit then 0 else |before| - limit
  {
    var before, after := Pending(ws[p.at].rows, def, cands), Pending(ws[p.end].rows, def, cands);
    var batch := set c | c in p.batch;
    forall c | c in cands ensures c in after <==> c in before - batch {
      SubmittedAfterPump(ws, steps, p, def, cands, limit, c);
    }
    SelectionIsForemostPending(ws[p.at].rows, def, cands, limit);
    DistinctSize(p.batch);
    assert after == before - batch && batch <= before;
  }

  /** Under E1-E3 it is enough that each target's task is idle at selection and that, until its submission has
      inserted, the submission does not stop or meet a taken run id and nobody else inserts a run of the task. */
  lemma IdleTargetsAreUnhindered(ws: seq<World>, steps: seq<Step>, p: Pump, def: Definition, cands: seq<Candidate>,
                                 limit: nat)
    requires IsPermittedRun(ws, steps) && IsPump(ws, p, def, cands, limit)
    requires forall i | 0 <= i < |p.batch| :: Idle(ws[p.at].rows, LogicalIdOf(def.make(p.batch[i])))
    requires forall i, j | 0 <= i < |p.batch| && p.at <= j < p.end && p.subs[i] in ws[p.end].submitters ::
      UndisturbedAt(ws, steps, j, p.subs[i], ws[p.end].submitters[p.subs[i]])
    ensures AllUnhindered(ws, steps, p)
  {
    KeyedHolds(ws, steps, p.end);
    forall i | 0 <= i < |p.subs|
      ensures p.subs[i] in ws[p.end].submitters && Unhindered(ws, steps, p.at, p.end, p.subs[i])
    {
      assert SubmitsAt(ws, p, def, i);
      assert SubmitterKeyed(ws[p.end].submitters[p.subs[i]]);
      assert Idle(ws[p.at].rows, LogicalIdOf(def.make(p.batch[i])));
      QuietIsUnhindered(ws, steps, p.at, p.end, p.subs[i]);
    }
  }

  // ---- Series of pumps ------------------------------------------------------------------------

  predicate PumpAt(ws: seq<World>, steps: seq<Step>, ps: seq<Pump>, def: Definition, cands: seq<Candidate>,
                   limit: nat, i: nat)
    requires |ws| == |steps| + 1 && i < |ps|
  {
    && IsPump(ws, ps[i], def, cands, limit)
    && Sole(ws, steps, ps[i].at, ps[i].end, def, ps[i].subs) && AllUnhindered(ws, steps, ps[i])
  }

  /** Between two pumps anything may happen but an insert for this backfill. */
  predicate FollowsAt(ws: seq<World>, steps: seq<Step>, ps: seq<Pump>, def: Definition, i: nat)
    requires |ws| == |steps| + 1 && 0 < i < |ps| && ps[i].at < |ws|
  {
    ps[i - 1].end <= ps[i].at && Sole(ws, steps, ps[i - 1].end, ps[i].at, def, [])
  }

  predicate IsSeries(ws: seq<World>, steps: seq<Step>, ps: seq<Pump>, def: Definition, cands: seq<Candidate>,
                     limit: nat)
    requires |ws| == |steps| + 1
  {
    && (forall i | 0 <= i < |ps| :: PumpAt(ws, steps, ps, def, cands, limit, i))
    && (forall i | 0 < i < |ps| :: ps[i].at < |ws| && FollowsAt(ws, steps, ps, def, i))
  }

  /** While nobody inserts for the backfill its pending targets do not change. */
  lemma PendingStays(ws: seq<World>, steps: seq<Step>, a: nat, n: nat, def: Definition, cands: seq<Candidate>)
    requires IsRun(ws, steps) && a <= n < |ws| && Faithful(def) && Sole(ws, steps, a, n, def, [])
    ensures Pending(ws[n].rows, def, cands) == Pending(ws[a].rows, def, cands)
  {
    forall c | c in cands ensures Submitted(ws[n].rows, def, c) <==> Submitted(ws[a].rows, def, c) {
      if Submitted(ws[a].rows, def, c) {
        SubmittedStays(ws, steps, a, n, def, c);
      } else if Submitted(ws[n].rows, def, c) {
        var i := TagHasItsClaim(ws, steps, a, n, def, c);
      }
    }
  }

  /** How many targets are pending when pump `i` starts. */
  ghost function PendingBefore(ws: seq<World>, ps: seq<Pump>, def: Definition, cands: seq<Candidate>, i: nat): nat
    requires i < |ps| && ps[i].at < |ws|
  {
    |Pending(ws[ps[i].at].rows, def, cands)|
  }

  /** How many are when it ends. */
  ghost function PendingAfter(ws: seq<World>, ps: seq<Pump>, def: Definition, cands: seq<Candidate>, i: nat): nat
    requires i < |ps| && ps[i].end < |ws|
  {
    |Pending(ws[ps[i].end].rows, def, cands)|
  }

  /** After m pumps the pending targets have shrunk by m times the limit. */
  lemma {:induction false} SeriesShrinksPending(ws: seq<World>, steps: seq<Step>, ps: seq<Pump>, def: Definition,
                                                cands: seq<Candidate>, limit: nat, m: nat)
    requires IsRun(ws, steps) && Faithful(def) && Distinct(cands) && 0 < m <= |ps|
    requires IsSeries(ws, steps, ps, def, cands, limit)
    ensures ps[0].at < |ws| && ps[m - 1].end < |ws|
    ensures var n := PendingBefore(ws, ps, def, cands, 0);
      PendingAfter(ws, ps, def, cands, m - 1) == if n <= m * limit then 0 else n - m * limit
  {
    var last := m - 1;
    PumpShrinks(ws, steps, ps, def, cands, limit, 0);
    if last > 0 {
      SeriesShrinksPending(ws, steps, ps, def, cands, limit, last);
      PumpShrinks(ws, steps, ps, def, cands, limit, last);
      PendingBetween(ws, steps, ps, def, cands, limit, last);
      ShrunkByOneMore(PendingBefore(ws, ps, def, cands, 0), last, limit);
    }
  }

  lemma PumpShrinks(ws: seq<World>, steps: seq<Step>, ps: seq<Pump>, def: Definition, cands: seq<Candidate>,
                    limit: nat, i: nat)
    requires IsRun(ws, steps) && Faithful(def) && Distinct(cands) && i < |ps|
    requires IsSeries(ws, steps, ps, def, cands, limit)
    ensures ps[i].at < |ws| && ps[i].end < |ws|
    ensures var before := PendingBefore(ws, ps, def, cands, i);
      PendingAfter(ws, ps, def, cands, i) == if before <= limit then 0 else before - limit
  {
    assert PumpAt(ws, steps, ps, def, cands, limit, i);
    PumpSubmitsItsBatch(ws, steps, ps[i], def, cands, limit);
  }

  lemma PendingBetween(ws: seq<World>, steps: seq<Step>, ps: seq<Pump>, def: Definition, cands: seq<Candidate>,
                       limit: nat, i: nat)
    requires IsRun(ws, steps) && Faithful(def) && 0 < i < |ps| && IsSeries(ws, steps, ps, def, cands, limit)
    ensures ps[i - 1].end < |ws| && ps[i].at < |ws|
    ensures PendingBefore(ws, ps, def, cands, i) == PendingAfter(ws, ps, def, cands, i - 1)
  {
    assert PumpAt(ws, steps, ps, def, cands, limit, i - 1) && FollowsAt(ws, steps, ps, def, i);
    PendingStays(ws, steps, ps[i - 1].end, ps[i].at, def, cands);
  }

  lemma ShrunkByOneMore(n: nat, m: nat, limit: nat)
    ensures var before := if n <= m * limit then 0 else n - m * limit;
      (if before <= limit then 0 else before - limit)
      == if n <= (m + 1) * limit then 0 else n - (m + 1) * limit
  {
    assert (m + 1) * limit == m * limit + limit;
    assert 0 <= m * limit;
  }

  lemma PendingAtMost(rows: seq<Row>, def: Definition, cands: seq<Candidate>)
    requires Distinct(cands)
    ensures |Pending(rows, def, cands)| <= |cands|
  {
    var all := Unsubmitted(rows, def, cands);
    DistinctSize(all);
    assert Pending(rows, def, cands) == (set x | x in all);
  }

  /** Once the pumps have room for all targets (ceil(n / limit) pumps do), every target has exactly one tagged
      run in every later state in which no one else inserted for the backfill, and selection finds nothing. */
  lemma SeriesCoversAll(ws: seq<World>, steps: seq<Step>, ps: seq<Pump>, def: Definition, cands: seq<Candidate>,
                        limit: nat, n: nat, c: Candidate)
    requires IsRun(ws, steps) && Faithful(def) && Distinct(cands) && |ps| > 0 && n < |ws|
    requires IsSeries(ws, steps, ps, def, cands, limit) && |cands| <= |ps| * limit
    requires ps[|ps| - 1].end <= n && Sole(ws, steps, ps[|ps| - 1].end, n, def, [])
    ensures c in cands ==> HasOneTaggedRun(ws[n].rows, def, c)
    ensures SelectTargets(ws[n].rows, def, cands, limit) == []
  {
    var end := ps[|ps| - 1].end;
    SeriesShrinksPending(ws, steps, ps, def, cands, limit, |ps|);
    PendingAtMost(ws[ps[0].at].rows, def, cands);
    PendingStays(ws, steps, end, n, def, cands);
    assert Pending(ws[n].rows, def, cands) == {};
    SelectionIsForemostPending(ws[n].rows, def, cands, limit);
    if c in cands {
      assert c !in Pending(ws[n].rows, def, cands);
      ReachableIsSound(ws, steps, n);
      SubmittedOnce(ws[n].rows, def, c);
    }
  }
}
