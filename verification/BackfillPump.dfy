/** The pump as the code runs it: the dry latch, the counts, and the loop over a batch. */
module BackfillPump {
  import opened Options
  import opened Statuses
  import opened Tasks
  import opened RunTable
  import opened Protocol
  import opened TaskMasters
  import opened Orders
  import opened Backfill
  import opened PumpCoverage

  // ---- The dry latch --------------------------------------------------------------------------

  datatype PumpRecord = PumpRecord(lastPumpedAt: int, drySince: Option<int>)

  /** The upsert of `record_pump`. */
  function RecordPump(record: Option<PumpRecord>, dry: bool, now: int): PumpRecord {
    PumpRecord(now,
      if !dry then None
      else if record.Some? && record.value.drySince.Some? then record.value.drySince
      else Some(now))
  }

  predicate Latched(record: Option<PumpRecord>) {
    record.Some? && record.value.drySince.Some?
  }

  /** What a pump that ran leaves behind: whether it found nothing, and when that was recorded. */
  datatype Note = Note(dry: bool, now: int)

  /** The two database effects of a request on the record. Other requests may come between them, so several
      pumps can pass the check before the first of them records. */
  datatype LatchEvent =
    | Asked(limit: nat, force: bool)
    | Noted(note: Note)

  /** The checks at the head of a pump. */
  predicate Passes(record: Option<PumpRecord>, e: LatchEvent)
    requires e.Asked?
  {
    e.limit > 0 && (e.force || !Latched(record))
  }

  function RecordAfter(es: seq<LatchEvent>): Option<PumpRecord> {
    if es == [] then None
    else
      var before := RecordAfter(es[..|es| - 1]);
      match es[|es| - 1]
      case Asked(_, _) => before
      case Noted(note) => Some(RecordPump(before, note.dry, note.now))
  }

  /** The pumps that ran, in the order of their records. */
  function Notes(es: seq<LatchEvent>): seq<Note> {
    if es == [] then []
    else
      match es[|es| - 1]
      case Asked(_, _) => Notes(es[..|es| - 1])
      case Noted(note) => Notes(es[..|es| - 1]) + [note]
  }

  /** Start of the maximal trailing run of dry pumps; the end of the sequence when the last found work. */
  function StreakStart(hist: seq<Note>): (i: nat)
    ensures i <= |hist|
    ensures forall k | i <= k < |hist| :: hist[k].dry
    ensures i > 0 ==> !hist[i - 1].dry
  {
    if hist == [] || !hist[|hist| - 1].dry then |hist| else
      var rest := hist[..|hist| - 1];
      assert forall k | 0 <= k < |rest| :: rest[k] == hist[k];
      StreakStart(rest)
  }

  lemma StreakSnoc(hist: seq<Note>, last: Note)
    ensures StreakStart(hist + [last]) == if last.dry then StreakStart(hist) else |hist| + 1
  {
    assert (hist + [last])[..|hist|] == hist;
  }

  /** The record is a function of the pumps that ran, however their checks and records interleave: its time
      is the last record's, and `dry_since` is the record time of the first pump of the trailing dry streak.
      Requests that were refused leave no trace. */
  lemma {:induction false} LatchFollowsHistory(es: seq<LatchEvent>)
    ensures var hist := Notes(es); var record := RecordAfter(es); var start := StreakStart(hist);
      if hist == [] then record == None
      else record == Some(PumpRecord(hist[|hist| - 1].now, if start < |hist| then Some(hist[start].now) else None))
  {
    if es != [] {
      var init, last := es[..|es| - 1], es[|es| - 1];
      LatchFollowsHistory(init);
      if last.Noted? {
        assert Notes(es) == Notes(init) + [last.note];
        StreakSnoc(Notes(init), last.note);
      }
    }
  }

  /** The streak never starts after the last pump, when records are timed in their order. */
  lemma DryNeverAfterLastPump(es: seq<LatchEvent>)
    requires forall i, j | 0 <= i < j < |Notes(es)| :: Notes(es)[i].now <= Notes(es)[j].now
    ensures var record := RecordAfter(es); Latched(record) ==> record.value.drySince.value <= record.value.lastPumpedAt
  {
    LatchFollowsHistory(es);
  }

  /** A request is refused exactly for a zero limit or, if it is not forced, when the last pump that recorded found
      nothing; and asking changes nothing. */
  lemma RefusedIffLastRanDry(es: seq<LatchEvent>, e: LatchEvent)
    requires e.Asked?
    ensures var hist := Notes(es);
      !Passes(RecordAfter(es), e) <==> e.limit == 0 || (!e.force && hist != [] && hist[|hist| - 1].dry)
    ensures RecordAfter(es + [e]) == RecordAfter(es) && Notes(es + [e]) == Notes(es)
  {
    LatchFollowsHistory(es);
    assert (es + [e])[..|es|] == es;
  }

  /** After a series of pumps with room for all targets the next pump is dry, so its record latches and an
      unforced request after it is refused. */
  lemma CoveredBackfillLatches(ws: seq<World>, steps: seq<Step>, ps: seq<Pump>, def: Definition, cands: seq<Candidate>,
                               limit: nat, n: nat, es: seq<LatchEvent>, now: int, e: LatchEvent)
    requires IsRun(ws, steps) && Faithful(def) && Distinct(cands) && |ps| > 0 && n < |ws|
    requires IsSeries(ws, steps, ps, def, cands, limit) && |cands| <= |ps| * limit
    requires ps[|ps| - 1].end <= n && Sole(ws, steps, ps[|ps| - 1].end, n, def, [])
    requires e.Asked? && e.limit > 0 && !e.force
    ensures var after := es + [Noted(Note(SelectTargets(ws[n].rows, def, cands, limit) == [], now))];
      Latched(RecordAfter(after)) && !Passes(RecordAfter(after), e)
  {
    SeriesCoversAll(ws, steps, ps, def, cands, limit, n, Candidate(0, 0));
    var note := Note(true, now);
    assert (es + [Noted(note)])[..|es|] == es;
  }

  // ---- Counts ---------------------------------------------------------------------------------

  datatype Tally = Tally(enqueued: nat, already: nat, refused: nat, errors: seq<int>)

  function Counted(t: Tally, c: Candidate, outcome: Outcome): Tally {
    match outcome
    case Enqueued(_, _) => t.(enqueued := t.enqueued + 1)
    case AlreadySubmitted(_, _) => t.(already := t.already + 1)
    case RefusedInFlight => t.(refused := t.refused + 1)
    case Errored => t.(errors := t.errors + [c.entityId])
  }

  function TallyOf(batch: seq<Candidate>, outcomes: seq<Outcome>): Tally
    requires |outcomes| <= |batch|
  {
    if outcomes == [] then Tally(0, 0, 0, [])
    else
      var last := |outcomes| - 1;
      Counted(TallyOf(batch, outcomes[..last]), batch[last], outcomes[last])
  }

  datatype OutcomeKind = WasEnqueued | WasAlready | WasRefused | WasErrored

  predicate OfKind(outcome: Outcome, kind: OutcomeKind) {
    match kind
    case WasEnqueued => outcome.Enqueued?
    case WasAlready => outcome.AlreadySubmitted?
    case WasRefused => outcome.RefusedInFlight?
    case WasErrored => outcome.Errored?
  }

  /** Which of the first `n` submissions had an outcome of this kind. */
  function Places(outcomes: seq<Outcome>, n: nat, kind: OutcomeKind): set<nat>
    requires n <= |outcomes|
  {
    set i: nat | i < n && OfKind(outcomes[i], kind)
  }

  /** Each count is the number of outcomes of its kind, and the errors name the targets that erred, in order. */
  predicate CountsOutcomes(t: Tally, batch: seq<Candidate>, outcomes: seq<Outcome>)
    requires |outcomes| <= |batch|
  {
    && t.enqueued == |Places(outcomes, |outcomes|, WasEnqueued)|
    && t.already == |Places(outcomes, |outcomes|, WasAlready)|
    && t.refused == |Places(outcomes, |outcomes|, WasRefused)|
    && |t.errors| == |Places(outcomes, |outcomes|, WasErrored)|
    && forall i | 0 <= i < |outcomes| && outcomes[i].Errored? :: ErrorListed(t, batch, outcomes, i)
  }

  predicate ErrorListed(t: Tally, batch: seq<Candidate>, outcomes: seq<Outcome>, i: nat)
    requires |outcomes| <= |batch| && i < |outcomes|
  {
    var earlier := |Places(outcomes, i, WasErrored)|;
    earlier < |t.errors| && t.errors[earlier] == batch[i].entityId
  }

  lemma PlacesSnoc(outcomes: seq<Outcome>, n: nat, kind: OutcomeKind)
    requires n < |outcomes|
    ensures |Places(outcomes, n + 1, kind)|
      == |Places(outcomes, n, kind)| + if OfKind(outcomes[n], kind) then 1 else 0
  {
    var fewer := Places(outcomes, n, kind);
    assert Places(outcomes, n + 1, kind) == if OfKind(outcomes[n], kind) then fewer + {n} else fewer;
  }

  lemma PlacesInPrefix(outcomes: seq<Outcome>, m: nat, n: nat, kind: OutcomeKind)
    requires n <= m <= |outcomes|
    ensures Places(outcomes[..m], n, kind) == Places(outcomes, n, kind)
  {
  }

  /** One more outcome moves exactly its own count. */
  lemma CountsGrow(t: Tally, batch: seq<Candidate>, outcomes: seq<Outcome>)
    requires 0 < |outcomes| <= |batch| && CountsOutcomes(t, batch, outcomes[..|outcomes| - 1])
    ensures CountsOutcomes(Counted(t, batch[|outcomes| - 1], outcomes[|outcomes| - 1]), batch, outcomes)
  {
    var last := |outcomes| - 1;
    var init, t' := outcomes[..last], Counted(t, batch[last], outcomes[last]);
    forall kind
      ensures |Places(outcomes, |outcomes|, kind)|
        == |Places(init, last, kind)| + if OfKind(outcomes[last], kind) then 1 else 0
    {
      PlacesSnoc(outcomes, last, kind);
      PlacesInPrefix(outcomes, last, last, kind);
    }
    forall i | 0 <= i < |outcomes| && outcomes[i].Errored? ensures ErrorListed(t', batch, outcomes, i) {
      PlacesInPrefix(outcomes, last, i, WasErrored);
      if i < last {
        assert init[i].Errored? && ErrorListed(t, batch, init, i);
      }
    }
  }

  /** The tally counts what it says. */
  lemma {:induction false} TallyCounts(batch: seq<Candidate>, outcomes: seq<Outcome>)
    requires |outcomes| <= |batch|
    ensures CountsOutcomes(TallyOf(batch, outcomes), batch, outcomes)
  {
    if outcomes != [] {
      TallyCounts(batch, outcomes[..|outcomes| - 1]);
      CountsGrow(TallyOf(batch, outcomes[..|outcomes| - 1]), batch, outcomes);
    }
  }

  lemma TallySnoc(batch: seq<Candidate>, outcomes: seq<Outcome>, outcome: Outcome)
    requires |outcomes| < |batch|
    ensures TallyOf(batch, outcomes + [outcome]) == Counted(TallyOf(batch, outcomes), batch[|outcomes|], outcome)
  {
    assert (outcomes + [outcome])[..|outcomes|] == outcomes;
  }

  /** Every outcome is counted once, and the already-submitted count is zero iff no outcome is of that kind. */
  lemma {:induction false} TallyAddsUp(batch: seq<Candidate>, outcomes: seq<Outcome>)
    requires |outcomes| <= |batch|
    ensures var t := TallyOf(batch, outcomes); |outcomes| == t.enqueued + t.already + t.refused + |t.errors|
    ensures TallyOf(batch, outcomes).already == 0 <==>
      forall i | 0 <= i < |outcomes| :: !outcomes[i].AlreadySubmitted?
  {
    if outcomes != [] {
      TallyAddsUp(batch, outcomes[..|outcomes| - 1]);
    }
  }

  /** The counts of a pump whose submissions are interleaved with anything: they add up to the batch, and
      with no other submitter of the backfill nothing is counted as already submitted. */
  lemma PumpCounts(ws: seq<World>, steps: seq<Step>, p: Pump, def: Definition, cands: seq<Candidate>, limit: nat,
                   outcomes: seq<Outcome>)
    requires IsRun(ws, steps) && Faithful(def) && Distinct(cands) && IsPump(ws, p, def, cands, limit)
    requires |outcomes| == |p.batch|
    requires forall i | 0 <= i < |p.batch| ::
      p.subs[i] in ws[p.end].submitters && ws[p.end].submitters[p.subs[i]].phase == Answered(outcomes[i])
    ensures var t := TallyOf(p.batch, outcomes); |p.batch| == t.enqueued + t.already + t.refused + |t.errors|
    ensures CountsOutcomes(TallyOf(p.batch, outcomes), p.batch, outcomes)
    ensures Sole(ws, steps, p.at, p.end, def, p.subs) ==> TallyOf(p.batch, outcomes).already == 0
  {
    TallyAddsUp(p.batch, outcomes);
    TallyCounts(p.batch, outcomes);
    if Sole(ws, steps, p.at, p.end, def, p.subs) {
      forall i | 0 <= i < |outcomes| ensures !outcomes[i].AlreadySubmitted? {
        NoneAlreadySubmitted(ws, steps, p, def, cands, limit, i);
      }
    }
  }

  // ---- The code -------------------------------------------------------------------------------

  /** The table after the first `n` submissions of a batch, left alone. */
  function PumpedTable(rows: seq<Row>, def: Definition, batch: seq<Candidate>, turns: nat -> Turn, n: nat): seq<Row>
    requires n <= |batch|
  {
    if n == 0 then rows
    else SubmitTarget(PumpedTable(rows, def, batch, turns, n - 1), def, batch[n - 1], turns(n - 1)).rows
  }

  /** The outcome of the i-th of them. */
  function OutcomeAt(rows: seq<Row>, def: Definition, batch: seq<Candidate>, turns: nat -> Turn, i: nat): Outcome
    requires i < |batch|
  {
    SubmitTarget(PumpedTable(rows, def, batch, turns, i), def, batch[i], turns(i)).outcome
  }

  function PumpedOutcomes(rows: seq<Row>, def: Definition, batch: seq<Candidate>, turns: nat -> Turn, n: nat)
    : (r: seq<Outcome>)
    requires n <= |batch|
    ensures |r| == n && forall i | 0 <= i < n :: r[i] == OutcomeAt(rows, def, batch, turns, i)
  {
    if n == 0 then []
    else PumpedOutcomes(rows, def, batch, turns, n - 1) + [OutcomeAt(rows, def, batch, turns, n - 1)]
  }

  lemma {:induction false} LoopTurn(rows: seq<Row>, def: Definition, batch: seq<Candidate>, turns: nat -> Turn, i: nat)
    requires i < |batch|
    ensures PumpedTable(rows, def, batch, turns, i + 1)
      == SubmitTarget(PumpedTable(rows, def, batch, turns, i), def, batch[i], turns(i)).rows
    ensures TallyOf(batch, PumpedOutcomes(rows, def, batch, turns, i + 1))
      == Counted(TallyOf(batch, PumpedOutcomes(rows, def, batch, turns, i)), batch[i],
           OutcomeAt(rows, def, batch, turns, i))
  {
    TallySnoc(batch, PumpedOutcomes(rows, def, batch, turns, i), OutcomeAt(rows, def, batch, turns, i));
  }

  /** The rows a pump has added that are queued. */
  function NewQueued(rows: seq<Row>, later: seq<Row>): set<nat> {
    set k: nat | |rows| <= k < |later| && HasStatus(later[k], Queued)
  }

  lemma QueuedSnoc(rows: seq<Row>, now: seq<Row>, row: Row)
    requires rows <= now
    ensures rows <= now + [row]
    ensures |NewQueued(rows, now + [row])| == |NewQueued(rows, now)| + if HasStatus(row, Queued) then 1 else 0
  {
    var later := now + [row];
    assert NewQueued(rows, later)
      == if HasStatus(row, Queued) then NewQueued(rows, now) + {|now|} else NewQueued(rows, now);
  }

  /** One submission adds a queued row iff it is enqueued, and at most one row. */
  lemma TurnAddsQueued(rows: seq<Row>, now: seq<Row>, def: Definition, c: Candidate, turn: Turn)
    requires TableAfter(rows, now)
    ensures var r := SubmitTarget(now, def, c, turn);
      && TableAfter(rows, r.rows)
      && |NewQueued(rows, r.rows)| == |NewQueued(rows, now)| + if r.outcome.Enqueued? then 1 else 0
  {
    var r, task := SubmitTarget(now, def, c, turn), def.make(c);
    SubmitCases(now, task, LogicalIdOf(task), Some(def.id), turn.io);
    if !turn.fails && r.handed.Some? {
      assert r.rows == r.rows[..|now|] + [r.rows[|now|]];
      QueuedSnoc(rows, now, r.rows[|now|]);
    }
  }

  /** The loop's table after `n` turns adds as many queued rows as its tally counts. */
  ghost predicate QueuedCounted(rows: seq<Row>, def: Definition, batch: seq<Candidate>, turns: nat -> Turn, n: nat)
    requires n <= |batch|
  {
    && TableAfter(rows, PumpedTable(rows, def, batch, turns, n))
    && EnqueuedCount(rows, def, batch, turns, n) == |NewQueued(rows, PumpedTable(rows, def, batch, turns, n))|
  }

  /** A sound table that only grew. */
  predicate TableAfter(rows: seq<Row>, later: seq<Row>) {
    TableOk(later) && rows <= later
  }

  function EnqueuedCount(rows: seq<Row>, def: Definition, batch: seq<Candidate>, turns: nat -> Turn, n: nat): nat
    requires n <= |batch|
  {
    TallyOf(batch, PumpedOutcomes(rows, def, batch, turns, n)).enqueued
  }

  lemma EnqueuedTurn(rows: seq<Row>, def: Definition, batch: seq<Candidate>, turns: nat -> Turn, n: nat)
    requires n < |batch|
    ensures var r := SubmitTarget(PumpedTable(rows, def, batch, turns, n), def, batch[n], turns(n));
      && PumpedTable(rows, def, batch, turns, n + 1) == r.rows
      && EnqueuedCount(rows, def, batch, turns, n + 1)
         == EnqueuedCount(rows, def, batch, turns, n) + if r.outcome.Enqueued? then 1 else 0
  {
    LoopTurn(rows, def, batch, turns, n);
  }

  lemma QueuedCountedStep(rows: seq<Row>, def: Definition, batch: seq<Candidate>, turns: nat -> Turn, n: nat)
    requires n < |batch| && QueuedCounted(rows, def, batch, turns, n)
    ensures QueuedCounted(rows, def, batch, turns, n + 1)
  {
    EnqueuedTurn(rows, def, batch, turns, n);
    TurnAddsQueued(rows, PumpedTable(rows, def, batch, turns, n), def, batch[n], turns(n));
  }

  lemma NothingQueued(rows: seq<Row>, def: Definition, batch: seq<Candidate>, turns: nat -> Turn)
    requires TableOk(rows)
    ensures QueuedCounted(rows, def, batch, turns, 0)
  {
    assert NewQueued(rows, rows) == {};
  }

  /** Left alone on a sound table, the loop's enqueued count is the number of queued rows it adds. */
  lemma EnqueuedAreQueued(rows: seq<Row>, def: Definition, batch: seq<Candidate>, turns: nat -> Turn, n: nat)
    requires TableOk(rows) && n <= |batch|
    ensures QueuedCounted(rows, def, batch, turns, n)
  {
    NothingQueued(rows, def, batch, turns);
    for i := 0 to n
      invariant QueuedCounted(rows, def, batch, turns, i)
    {
      QueuedCountedStep(rows, def, batch, turns, i);
    }
  }

  datatype PumpAnswer =
    | Pumped(selected: nat, tally: Tally, record: PumpRecord)
    | BadLimit
    | Dry(since: int)

  class Engine {
    const master: TaskMaster
    var records: map<string, PumpRecord>

    constructor (master: TaskMaster)
      ensures this.master == master && records == map[]
    {
      this.master := master;
      records := map[];
    }

    function RecordOf(id: string): Option<PumpRecord>
      reads this
    {
      if id in records then Some(records[id]) else None
    }

    method SubmitOne(def: Definition, c: Candidate, turn: Turn) returns (outcome: Outcome)
      modifies master, master.tracker
      ensures master.tracker.rows == SubmitTarget(old(master.tracker.rows), def, c, turn).rows
      ensures outcome == SubmitTarget(old(master.tracker.rows), def, c, turn).outcome
    {
      outcome := Errored;
      if !turn.fails {
        outcome := master.SubmitInner(def.make(c), Some(def.id), turn.io);
      }
    }

    /** The submission loop, counting each outcome once. */
    method SubmitBatch(def: Definition, batch: seq<Candidate>, turns: nat -> Turn) returns (tally: Tally)
      modifies master, master.tracker
      ensures master.tracker.rows == PumpedTable(old(master.tracker.rows), def, batch, turns, |batch|)
      ensures tally == TallyOf(batch, PumpedOutcomes(old(master.tracker.rows), def, batch, turns, |batch|))
      ensures |batch| == tally.enqueued + tally.already + tally.refused + |tally.errors|
      ensures CountsOutcomes(tally, batch, PumpedOutcomes(old(master.tracker.rows), def, batch, turns, |batch|))
      ensures old(TableOk(master.tracker.rows)) ==>
        tally.enqueued == |NewQueued(old(master.tracker.rows), master.tracker.rows)|
    {
      ghost var before := master.tracker.rows;
      tally := Tally(0, 0, 0, []);
      for i := 0 to |batch|
        invariant master.tracker.rows == PumpedTable(before, def, batch, turns, i)
        invariant tally == TallyOf(batch, PumpedOutcomes(before, def, batch, turns, i))
      {
        LoopTurn(before, def, batch, turns, i);
        var outcome := SubmitOne(def, batch[i], turns(i));
        tally := Counted(tally, batch[i], outcome);
      }
      TallyAddsUp(batch, PumpedOutcomes(before, def, batch, turns, |batch|));
      TallyCounts(batch, PumpedOutcomes(before, def, batch, turns, |batch|));
      if TableOk(before) {
        EnqueuedAreQueued(before, def, batch, turns, |batch|);
      }
    }

    /** `pump_definition`: refuse, or select, submit each target, count, and record. */
    method Pump(def: Definition, cands: seq<Candidate>, limit: nat, force: bool, turns: nat -> Turn, now: int)
      returns (r: PumpAnswer)
      modifies this, master, master.tracker
      ensures limit == 0 ==> r == BadLimit
      ensures limit > 0 && !force && Latched(old(RecordOf(def.id))) ==>
        r == Dry(old(RecordOf(def.id)).value.drySince.value)
      ensures !r.Pumped? ==> master.tracker.rows == old(master.tracker.rows) && records == old(records)
      ensures r.Pumped? <==> limit > 0 && (force || !Latched(old(RecordOf(def.id))))
      ensures r.Pumped? ==>
        var before := old(master.tracker.rows);
        var batch := SelectTargets(before, def, cands, limit);
        && r.selected == |batch|
        && r.selected == r.tally.enqueued + r.tally.already + r.tally.refused + |r.tally.errors|
        && r.tally == TallyOf(batch, PumpedOutcomes(before, def, batch, turns, |batch|))
        && CountsOutcomes(r.tally, batch, PumpedOutcomes(before, def, batch, turns, |batch|))
        && (old(TableOk(master.tracker.rows)) ==> r.tally.enqueued == |NewQueued(before, master.tracker.rows)|)
        && master.tracker.rows == PumpedTable(before, def, batch, turns, |batch|)
        && r.record == RecordPump(old(RecordOf(def.id)), batch == [], now)
        && records == old(records)[def.id := r.record]
    {
      if limit == 0 {
        return BadLimit;
      }
      if !force && def.id in records && records[def.id].drySince.Some? {
        return Dry(records[def.id].drySince.value);
      }
      var batch := SelectTargets(master.tracker.rows, def, cands, limit);
      var tally := SubmitBatch(def, batch, turns);
      var record := RecordPump(RecordOf(def.id), |batch| == 0, now);
      records := records[def.id := record];
      return Pumped(|batch|, tally, record);
    }
  }

  // ---- The code's pump in the protocol --------------------------------------------------------

  /** The submission of a target that succeeds or fails first, as steps of one more submitter. */
  lemma TurnIsAProtocolPath(w: World, s: nat, def: Definition, c: Candidate, turn: Turn)
    returns (steps: seq<Step>, w': World)
    requires s !in w.submitters && Faithful(def)
    ensures Path(w, steps, w')
    ensures var r := SubmitTarget(w.rows, def, c, turn);
      w'.rows == r.rows && AnsweredAs(w', s, def, c, r.outcome) && w'.submitters == w.submitters[s := w'.submitters[s]]
  {
    var start := StartSubmit(s, def.make(c), Some(def.id));
    assert TargetOf(def.make(c)) == TargetFor(def, c) && Submittable(def.make(c));
    var begun := Next(w, start);
    if turn.fails {
      w' := Next(begun, AbandonSubmit(s));
      PathExtends(begun, [], begun, AbandonSubmit(s));
      steps := [] + [AbandonSubmit(s)];
    } else {
      steps, w' := SubmitIsAProtocolPath(begun, s, turn.io);
    }
    PathCons(w, start, steps, w');
    steps := [start] + steps;
  }

  predicate AnsweredAs(w: World, s: nat, def: Definition, c: Candidate, outcome: Outcome) {
    && s in w.submitters && w.submitters[s].phase == Answered(outcome)
    && w.submitters[s].task == def.make(c) && w.submitters[s].backfill == Some(def.id)
  }

  /** What the first `n` turns of the loop leave: the table, and the answer of each submitter `base + i`. */
  predicate LoopDone(rows: seq<Row>, w: World, base: nat, def: Definition, batch: seq<Candidate>, turns: nat -> Turn,
                     n: nat)
    requires n <= |batch|
  {
    && w.rows == PumpedTable(rows, def, batch, turns, n)
    && (forall s | s in w.submitters :: s < base + n)
    && (forall i | 0 <= i < n :: LoopAnswers(rows, w, base, def, batch, turns, i))
  }

  predicate LoopAnswers(rows: seq<Row>, w: World, base: nat, def: Definition, batch: seq<Candidate>,
                        turns: nat -> Turn, i: nat)
    requires i < |batch|
  {
    AnsweredAs(w, base + i, def, batch[i], OutcomeAt(rows, def, batch, turns, i))
  }

  lemma {:induction false} LoopStep(rows: seq<Row>, w: World, w': World, base: nat, def: Definition,
                                    batch: seq<Candidate>, turns: nat -> Turn, n: nat)
    requires n < |batch| && LoopDone(rows, w, base, def, batch, turns, n)
    requires w'.rows == SubmitTarget(w.rows, def, batch[n], turns(n)).rows
    requires AnsweredAs(w', base + n, def, batch[n], SubmitTarget(w.rows, def, batch[n], turns(n)).outcome)
    requires w'.submitters == w.submitters[base + n := w'.submitters[base + n]]
    ensures LoopDone(rows, w', base, def, batch, turns, n + 1)
  {
    forall i | 0 <= i < n + 1 ensures LoopAnswers(rows, w', base, def, batch, turns, i) {
      assert i < n ==> LoopAnswers(rows, w, base, def, batch, turns, i);
    }
  }

  /** The code's loop over a batch, left alone, is a path of the protocol: the submitters `base`, `base + 1`,
      ... submit the targets in turn, leave the same table and get the same answers. */
  lemma {:induction false} PumpIsAProtocolPath(w: World, base: nat, def: Definition, batch: seq<Candidate>,
                                               turns: nat -> Turn)
    returns (steps: seq<Step>, w': World)
    requires Faithful(def) && forall s | s in w.submitters :: s < base
    ensures Path(w, steps, w') && LoopDone(w.rows, w', base, def, batch, turns, |batch|)
  {
    steps, w' := [], w;
    for n := 0 to |batch|
      invariant Path(w, steps, w') && LoopDone(w.rows, w', base, def, batch, turns, n)
    {
      var more, end := LoopPath(w.rows, w', base, def, batch, turns, n);
      PathJoin(w, steps, w', more, end);
      steps, w' := steps + more, end;
    }
  }

  lemma {:induction false} LoopPath(rows: seq<Row>, mid: World, base: nat, def: Definition, batch: seq<Candidate>,
                                    turns: nat -> Turn, n: nat)
    returns (more: seq<Step>, w': World)
    requires Faithful(def) && n < |batch| && LoopDone(rows, mid, base, def, batch, turns, n)
    ensures Path(mid, more, w') && LoopDone(rows, w', base, def, batch, turns, n + 1)
  {
    more, w' := TurnIsAProtocolPath(mid, base + n, def, batch[n], turns(n));
    LoopStep(rows, mid, w', base, def, batch, turns, n);
  }

  /** Left alone on a sound table, the loop makes only its own targets submitted. */
  lemma {:induction false} LoopSubmitsItsBatch(rows: seq<Row>, def: Definition, batch: seq<Candidate>,
                                               turns: nat -> Turn, n: nat, c: Candidate)
    requires Sound(rows) && Faithful(def) && n <= |batch|
    ensures Sound(PumpedTable(rows, def, batch, turns, n))
    ensures (forall j | 0 <= j < n :: batch[j] != c) ==>
      (Submitted(PumpedTable(rows, def, batch, turns, n), def, c) <==> Submitted(rows, def, c))
  {
    if n > 0 {
      LoopSubmitsItsBatch(rows, def, batch, turns, n - 1, c);
      SubmitTouchesOwnTarget(PumpedTable(rows, def, batch, turns, n - 1), def, batch[n - 1], turns(n - 1), c);
    }
  }

  lemma TurnIsNotAlready(rows: seq<Row>, def: Definition, c: Candidate, turn: Turn)
    requires Sound(rows) && Faithful(def) && !Submitted(rows, def, c)
    ensures !SubmitTarget(rows, def, c, turn).outcome.AlreadySubmitted?
  {
    ExclusionAgreesWithKey(rows, def, c);
    SubmitCases(rows, def.make(c), LogicalIdOf(def.make(c)), Some(def.id), turn.io);
  }

  lemma {:induction false} LoneTurnIsNotAlready(rows: seq<Row>, def: Definition, batch: seq<Candidate>,
                                                turns: nat -> Turn, i: nat)
    requires Sound(rows) && Faithful(def) && Distinct(batch) && i < |batch| && !Submitted(rows, def, batch[i])
    ensures !OutcomeAt(rows, def, batch, turns, i).AlreadySubmitted?
  {
    LoopSubmitsItsBatch(rows, def, batch, turns, i, batch[i]);
    TurnIsNotAlready(PumpedTable(rows, def, batch, turns, i), def, batch[i], turns(i));
  }

  /** So the code's pump, left alone on a sound table, counts nothing as already submitted. */
  lemma {:induction false} LonePumpCountsNoneAlready(rows: seq<Row>, def: Definition, cands: seq<Candidate>,
                                                     limit: nat, turns: nat -> Turn)
    requires Sound(rows) && Faithful(def) && Distinct(cands)
    ensures var batch := SelectTargets(rows, def, cands, limit);
      TallyOf(batch, PumpedOutcomes(rows, def, batch, turns, |batch|)).already == 0
  {
    var batch := SelectTargets(rows, def, cands, limit);
    var outcomes := PumpedOutcomes(rows, def, batch, turns, |batch|);
    SelectionIsForemostPending(rows, def, cands, limit);
    forall i | 0 <= i < |batch| ensures !outcomes[i].AlreadySubmitted? {
      assert batch[i] in Pending(rows, def, cands);
      LoneTurnIsNotAlready(rows, def, batch, turns, i);
    }
    TallyAddsUp(batch, outcomes);
  }
}
