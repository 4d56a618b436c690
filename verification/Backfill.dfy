/** The backfill pump: bounded selection of unsubmitted targets, one submission per target, and the
    durable dry latch. */
module Backfill {
  import opened Options
  import opened Tasks
  import opened RunTable
  import opened Protocol
  import opened ProtocolSafety
  import opened TaskMasters
  import opened Orders

  datatype Candidate = Candidate(entityId: int, ownerId: int)

  /** A code-defined workload: its id, the types of its tasks, and its task factory. */
  datatype Definition = Definition(id: string, taskType: string, entityType: string, make: Candidate -> Task)

  function TargetFor(def: Definition, c: Candidate): Target {
    Target(c.ownerId, def.taskType, def.entityType, c.entityId)
  }

  /** The factory keeps the identity of its target. */
  ghost predicate Faithful(def: Definition) {
    forall c :: TargetOf(def.make(c)) == TargetFor(def, c) && Submittable(def.make(c))
  }

  /** The one registered backfill: every capture is illuminated again, with a projected V2 result. */
  function IlluminateV2(): Definition {
    Definition("illuminate-v2-all-captures-2026-10-16", "illuminate", "capture",
      (c: Candidate) => Illuminate(c.entityId, c.ownerId, true))
  }

  lemma RegisteredIsFaithful()
    ensures Faithful(IlluminateV2())
    ensures forall c :: FollowUp(IlluminateV2().make(c)) == Some(SearchIndex(c.entityId, c.ownerId))
  {
  }

  // ---- Selection ------------------------------------------------------------------------------

  predicate Tags(row: Row, def: Definition, c: Candidate) {
    row.run.backfillId == Some(def.id) && row.target == TargetFor(def, c)
  }

  /** The correlated subquery: some run of this backfill has the target's identity columns. */
  predicate Submitted(rows: seq<Row>, def: Definition, c: Candidate) {
    exists k | 0 <= k < |rows| :: Tags(rows[k], def, c)
  }

  /** Descending entity id, then descending owner id. */
  function Rank(c: Candidate): Key {
    Key(-c.entityId, -c.ownerId)
  }

  function Unsubmitted(rows: seq<Row>, def: Definition, cands: seq<Candidate>): (r: seq<Candidate>)
    ensures forall c :: c in r <==> c in cands && !Submitted(rows, def, c)
    ensures Distinct(cands) ==> Distinct(r)
    ensures |r| <= |cands|
  {
    if cands == [] then []
    else
      assert cands == [cands[0]] + cands[1..];
      var rest := Unsubmitted(rows, def, cands[1..]);
      if Submitted(rows, def, cands[0]) then rest else [cands[0]] + rest
  }

  /** `select_targets`: exclusion, then order, then limit. */
  function SelectTargets(rows: seq<Row>, def: Definition, cands: seq<Candidate>, limit: nat): seq<Candidate> {
    var ordered := Sort(Rank, Unsubmitted(rows, def, cands));
    if |ordered| <= limit then ordered else ordered[..limit]
  }

  /** Targets still to be submitted, as a set. */
  ghost function Pending(rows: seq<Row>, def: Definition, cands: seq<Candidate>): set<Candidate> {
    set c | c in cands && !Submitted(rows, def, c)
  }

  lemma {:induction false} DistinctSize<T>(s: seq<T>)
    requires Distinct(s)
    ensures |set x | x in s| == |s|
  {
    if s != [] {
      var last := |s| - 1;
      DistinctSize(s[..last]);
      assert (set x | x in s) == (set x | x in s[..last]) + {s[last]};
    }
  }

  /** Greater entity ids come first, and among equal ones greater owner ids. */
  predicate NoLater(a: Candidate, b: Candidate) {
    a.entityId >= b.entityId && (a.entityId == b.entityId ==> a.ownerId >= b.ownerId)
  }

  /** A batch holds the `limit` foremost pending targets (all of them when fewer), each once. */
  lemma SelectionIsForemostPending(rows: seq<Row>, def: Definition, cands: seq<Candidate>, limit: nat)
    requires Distinct(cands)
    ensures var batch := SelectTargets(rows, def, cands, limit); var pending := Pending(rows, def, cands);
      && Distinct(batch) && (forall i, j | 0 <= i < j < |batch| :: NoLater(batch[i], batch[j]))
      && (forall c | c in batch :: c in pending)
      && |batch| == (if |pending| <= limit then |pending| else limit)
      && (forall c, b | c in pending && c !in batch && b in batch :: NoLater(b, c))
  {
    OrderedArePending(rows, def, cands);
    assert forall a, b | AtMost(Rank(a), Rank(b)) :: NoLater(a, b);
    PrefixIsForemost(Sort(Rank, Unsubmitted(rows, def, cands)), limit);
  }

  /** The pending targets, sorted, each once. */
  lemma OrderedArePending(rows: seq<Row>, def: Definition, cands: seq<Candidate>)
    requires Distinct(cands)
    ensures var ordered := Sort(Rank, Unsubmitted(rows, def, cands));
      && Distinct(ordered) && Pending(rows, def, cands) == (set x | x in ordered)
      && |Pending(rows, def, cands)| == |ordered|
  {
    var ordered := Sort(Rank, Unsubmitted(rows, def, cands));
    SortKeepsBag(Rank, Unsubmitted(rows, def, cands));
    SameBagDistinct(Unsubmitted(rows, def, cands), ordered);
    DistinctSize(ordered);
    assert Pending(rows, def, cands) == (set x | x in ordered);
  }

  lemma PrefixIsForemost(ordered: seq<Candidate>, limit: nat)
    requires Distinct(ordered) && Ascending(Rank, ordered)
    ensures var batch := if |ordered| <= limit then ordered else ordered[..limit];
      && Distinct(batch) && Ascending(Rank, batch) && (forall c | c in batch :: c in ordered)
      && (forall c, b | c in ordered && c !in batch && b in batch :: AtMost(Rank(b), Rank(c)))
  {
    var batch := if |ordered| <= limit then ordered else ordered[..limit];
    forall c, b | c in ordered && c !in batch && b in batch ensures AtMost(Rank(b), Rank(c)) {
      var i :| 0 <= i < |ordered| && ordered[i] == c;
      var j :| 0 <= j < |batch| && batch[j] == b;
      assert ordered[j] == b && j < i;
    }
  }

  // ---- One submission of the pump -------------------------------------------------------------

  /** The foreign side of one submission: it may fail before touching the table. */
  datatype Turn = Turn(fails: bool, io: Inputs)

  function SubmitTarget(rows: seq<Row>, def: Definition, c: Candidate, turn: Turn): Submission {
    if turn.fails then Submission(rows, None, Errored)
    else Submit(rows, def.make(c), LogicalIdOf(def.make(c)), Some(def.id), turn.io)
  }

  predicate Sound(rows: seq<Row>) {
    TableOk(rows) && TableKeyed(rows)
  }

  /** Every table the protocol can reach is sound. */
  lemma ReachableIsSound(ws: seq<World>, steps: seq<Step>, n: nat)
    requires IsRun(ws, steps) && n < |ws|
    ensures Sound(ws[n].rows)
  {
    InvariantHolds(ws, steps, n);
    KeyedHolds(ws, steps, n);
  }

  /** The pump's column-wise exclusion and the submission's unique key are the same test. */
  lemma ExclusionAgreesWithKey(rows: seq<Row>, def: Definition, c: Candidate)
    requires TableKeyed(rows) && Faithful(def)
    ensures Submitted(rows, def, c) <==> KeyTaken(rows, Some(def.id), LogicalIdOf(def.make(c)))
  {
    var task := def.make(c);
    assert TargetOf(task) == TargetFor(def, c);
    if Submitted(rows, def, c) {
      var k :| 0 <= k < |rows| && Tags(rows[k], def, c);
      ColumnsMatchKey(rows, k, task);
      assert HasKey(rows[k].run, Some(def.id), LogicalIdOf(task));
    }
    if KeyTaken(rows, Some(def.id), LogicalIdOf(task)) {
      var k :| 0 <= k < |rows| && HasKey(rows[k].run, Some(def.id), LogicalIdOf(task));
      ColumnsMatchKey(rows, k, task);
      assert Tags(rows[k], def, c);
    }
  }

  /** A submission adds no tagged run but that of its own target. */
  lemma SubmitTouchesOwnTarget(rows: seq<Row>, def: Definition, c: Candidate, turn: Turn, other: Candidate)
    requires Sound(rows) && Faithful(def)
    ensures var after := SubmitTarget(rows, def, c, turn).rows;
      && Sound(after) && Extends(rows, after)
      && (other != c ==> (Submitted(after, def, other) <==> Submitted(rows, def, other)))
      && (Submitted(rows, def, c) ==> Submitted(after, def, c))
  {
    var r := SubmitTarget(rows, def, c, turn);
    var task := def.make(c);
    assert TargetOf(task) == TargetFor(def, c) && Submittable(task);
    SubmitCases(rows, task, LogicalIdOf(task), Some(def.id), turn.io);
    if !turn.fails && r.handed.Some? {
      var row := r.rows[|rows|];
      assert r.rows == r.rows[..|rows|] + [row];
      AppendedKeyed(rows, row);
      AppendedSubmitted(rows, row, def, c, other);
    }
  }

  lemma AppendedKeyed(rows: seq<Row>, row: Row)
    requires TableKeyed(rows) && RunKeyed(row.run) && row.target == TargetOf(row.run.task)
    ensures TableKeyed(rows + [row])
  {
  }

  lemma AppendedSubmitted(rows: seq<Row>, row: Row, def: Definition, c: Candidate, other: Candidate)
    requires row.target == TargetFor(def, c)
    ensures other != c ==> (Submitted(rows + [row], def, other) <==> Submitted(rows, def, other))
    ensures Submitted(rows, def, c) ==> Submitted(rows + [row], def, c)
  {
    var after := rows + [row];
    if Submitted(rows, def, other) {
      var k :| 0 <= k < |rows| && Tags(rows[k], def, other);
      assert Tags(after[k], def, other);
    }
    if Submitted(rows, def, c) {
      var k :| 0 <= k < |rows| && Tags(rows[k], def, c);
      assert Tags(after[k], def, c);
    }
    if Submitted(after, def, other) && other != c {
      var k :| 0 <= k < |after| && Tags(after[k], def, other);
      assert k < |rows| && Tags(rows[k], def, other);
    }
  }

  /** The target's tagged run exists and is the only one. */
  ghost predicate HasOneTaggedRun(rows: seq<Row>, def: Definition, c: Candidate) {
    && Submitted(rows, def, c)
    && forall j, k | 0 <= j < |rows| && 0 <= k < |rows| && Tags(rows[j], def, c) && Tags(rows[k], def, c) :: j == k
  }

  lemma SubmittedOnce(rows: seq<Row>, def: Definition, c: Candidate)
    requires Sound(rows) && Faithful(def) && Submitted(rows, def, c)
    ensures HasOneTaggedRun(rows, def, c)
  {
    var task := def.make(c);
    assert TargetOf(task) == TargetFor(def, c);
    forall j, k | 0 <= j < |rows| && 0 <= k < |rows| && Tags(rows[j], def, c) && Tags(rows[k], def, c) ensures j == k {
      ColumnsMatchKey(rows, j, task);
      ColumnsMatchKey(rows, k, task);
      assert HasKey(rows[j].run, rows[k].run.backfillId, rows[k].run.logicalId);
    }
  }
}
