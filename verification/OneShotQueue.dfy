/** A queue that hands out each distinct item exactly once, ever. */
module OneShotQueues {
  import opened Orders

  datatype QueueStatus = Pending | Reserved | Completed

  /** The state behind the mutex: the waiting items and the status of every item ever seen. */
  datatype Queue<!T> = Queue(pending: seq<T>, status: map<T, QueueStatus>)

  /** `Panicked` stands for the `expect` and `unreachable!` of `pop_next`. */
  datatype PopResult<T> = Nothing | Item(item: T) | Panicked

  function EnqueueOne<T>(q: Queue<T>, x: T): Queue<T> {
    if x in q.status then q else Queue(q.pending + [x], q.status[x := Pending])
  }

  function PopResultOf<T>(q: Queue<T>): PopResult<T> {
    if q.pending == [] then Nothing
    else
      var x := q.pending[0];
      if x in q.status && q.status[x].Pending? then Item(x) else Panicked
  }

  function AfterPop<T>(q: Queue<T>): Queue<T> {
    if PopResultOf(q).Item? then Queue(q.pending[1..], q.status[q.pending[0] := Reserved])
    else if q.pending == [] then q else q.(pending := q.pending[1..])
  }

  predicate Completes<T>(q: Queue<T>, x: T) {
    x in q.status && q.status[x].Reserved?
  }

  function AfterComplete<T>(q: Queue<T>, x: T): Queue<T> {
    if Completes(q, x) then q.(status := q.status[x := Completed]) else q
  }

  /** Enqueueing items one after the other. */
  function EnqueueAll<T>(q: Queue<T>, xs: seq<T>): Queue<T> {
    if xs == [] then q else EnqueueOne(EnqueueAll(q, xs[..|xs| - 1]), xs[|xs| - 1])
  }

  /** How many of them were new. */
  function NewCount<T>(q: Queue<T>, xs: seq<T>): nat {
    if xs == [] then 0
    else
      var init := xs[..|xs| - 1];
      NewCount(q, init) + if xs[|xs| - 1] in EnqueueAll(q, init).status then 0 else 1
  }

  // ---- Whole histories ------------------------------------------------------------------------

  datatype Op<T> = Enqueue(x: T) | EnqueueMany(xs: seq<T>) | Pop | Complete(x: T)

  /** The queue with what it has taken in for the first time, handed out and completed so far. */
  datatype History<!T> = History(queue: Queue<T>, firsts: seq<T>, popped: seq<T>, completed: seq<T>)

  function Take<T>(h: History<T>, x: T): History<T> {
    h.(queue := EnqueueOne(h.queue, x), firsts := if x in h.queue.status then h.firsts else h.firsts + [x])
  }

  function TakeAll<T>(h: History<T>, xs: seq<T>): History<T> {
    if xs == [] then h else Take(TakeAll(h, xs[..|xs| - 1]), xs[|xs| - 1])
  }

  function Perform<T>(h: History<T>, op: Op<T>): History<T> {
    match op
    case Enqueue(x) => Take(h, x)
    case EnqueueMany(xs) => TakeAll(h, xs)
    case Pop =>
      h.(queue := AfterPop(h.queue),
         popped := match PopResultOf(h.queue) case Item(x) => h.popped + [x] case _ => h.popped)
    case Complete(x) =>
      h.(queue := AfterComplete(h.queue, x),
         completed := if Completes(h.queue, x) then h.completed + [x] else h.completed)
  }

  function PerformAll<T>(ops: seq<Op<T>>): History<T> {
    if ops == [] then History(Queue([], map[]), [], [], [])
    else Perform(PerformAll(ops[..|ops| - 1]), ops[|ops| - 1])
  }

  /** Handed-out items, then waiting items, are the first-time enqueues in order, each once; an item waits,
      is reserved or is completed exactly as its status says. */
  ghost predicate Lawful<T>(h: History<T>) {
    && h.popped + h.queue.pending == h.firsts && Distinct(h.firsts) && Distinct(h.completed)
    && (forall x | x in h.queue.status :: x in h.firsts)
    && (forall i | 0 <= i < |h.firsts| :: h.firsts[i] in h.queue.status)
    && (forall i | 0 <= i < |h.popped| :: h.popped[i] in h.queue.status && !h.queue.status[h.popped[i]].Pending?)
    && (forall i | 0 <= i < |h.queue.pending| ::
          h.queue.pending[i] in h.queue.status && h.queue.status[h.queue.pending[i]].Pending?)
    && (forall x | x in h.queue.status :: h.queue.status[x].Completed? <==> x in h.completed)
    && (forall i | 0 <= i < |h.completed| :: h.completed[i] in h.popped)
  }

  lemma TakeKeepsLawful<T>(h: History<T>, x: T)
    requires Lawful(h)
    ensures Lawful(Take(h, x))
  {
    if x !in h.queue.status {
      assert h.popped + (h.queue.pending + [x]) == h.firsts + [x];
      assert forall i | 0 <= i < |h.firsts| :: h.firsts[i] != x;
    }
  }

  lemma {:induction false} TakeAllKeepsLawful<T>(h: History<T>, xs: seq<T>)
    requires Lawful(h)
    ensures Lawful(TakeAll(h, xs))
  {
    if xs != [] {
      TakeAllKeepsLawful(h, xs[..|xs| - 1]);
      TakeKeepsLawful(TakeAll(h, xs[..|xs| - 1]), xs[|xs| - 1]);
    }
  }

  /** A lawful queue never panics on pop. */
  lemma PopNeverPanics<T>(h: History<T>)
    requires Lawful(h)
    ensures !PopResultOf(h.queue).Panicked?
    ensures PopResultOf(h.queue).Item? ==> PopResultOf(h.queue).item !in h.popped
  {
    if h.queue.pending != [] {
      assert h.queue.pending[0] in h.queue.status && h.queue.status[h.queue.pending[0]].Pending?;
    }
  }

  lemma PopKeepsLawful<T>(h: History<T>)
    requires Lawful(h)
    ensures Lawful(Perform(h, Pop))
  {
    PopNeverPanics(h);
    if h.queue.pending != [] {
      var x := h.queue.pending[0];
      var h' := Perform(h, Pop);
      assert h'.popped + h'.queue.pending == h.firsts;
      RestDiffers(h);
      assert forall i | 0 <= i < |h'.queue.pending| :: h'.queue.pending[i] == h.queue.pending[i + 1];
    }
  }

  /** The front item waits only once. */
  lemma RestDiffers<T>(h: History<T>)
    requires h.popped + h.queue.pending == h.firsts && Distinct(h.firsts) && h.queue.pending != []
    ensures forall i | 0 < i < |h.queue.pending| :: h.queue.pending[i] != h.queue.pending[0]
  {
    var n := |h.popped|;
    assert h.firsts[n] == h.queue.pending[0];
    forall i | 0 < i < |h.queue.pending| ensures h.queue.pending[i] != h.queue.pending[0] {
      assert h.firsts[n + i] == h.queue.pending[i];
    }
  }

  /** An item that no longer waits has been handed out. */
  lemma ReservedIsPopped<T>(h: History<T>, x: T)
    requires Lawful(h) && x in h.queue.status
    ensures x in h.popped || h.queue.status[x].Pending?
  {
    assert x in h.popped + h.queue.pending;
    if x in h.queue.pending {
      var i :| 0 <= i < |h.queue.pending| && h.queue.pending[i] == x;
    }
  }

  lemma CompleteKeepsLawful<T>(h: History<T>, x: T)
    requires Lawful(h)
    ensures Lawful(Perform(h, Complete(x)))
  {
    if Completes(h.queue, x) {
      ReservedIsPopped(h, x);
      var h' := Perform(h, Complete(x));
      assert forall i | 0 <= i < |h.queue.pending| :: h.queue.pending[i] != x;
      assert h'.completed == h.completed + [x] && x !in h.completed;
    }
  }

  /** Over any sequence of calls the queue stays lawful, so no item is handed out or completed twice and
      `pop_next` never panics. */
  lemma {:induction false} AlwaysLawful<T>(ops: seq<Op<T>>)
    ensures Lawful(PerformAll(ops)) && !PopResultOf(PerformAll(ops).queue).Panicked?
    ensures Distinct(PerformAll(ops).popped) && Distinct(PerformAll(ops).completed)
  {
    if ops != [] {
      var h := PerformAll(ops[..|ops| - 1]);
      AlwaysLawful(ops[..|ops| - 1]);
      match ops[|ops| - 1]
      case Enqueue(x) => TakeKeepsLawful(h, x);
      case EnqueueMany(xs) => TakeAllKeepsLawful(h, xs);
      case Pop => PopKeepsLawful(h);
      case Complete(x) => CompleteKeepsLawful(h, x);
    }
    var h := PerformAll(ops);
    PopNeverPanics(h);
    assert forall i | 0 <= i < |h.popped| :: h.popped[i] == h.firsts[i];
  }

  // ---- The order, from the calls alone --------------------------------------------------------

  /** Everything ever offered to the queue, repeats included. */
  function Offered<T>(ops: seq<Op<T>>): seq<T> {
    if ops == [] then []
    else
      Offered(ops[..|ops| - 1]) + match ops[|ops| - 1]
                                  case Enqueue(x) => [x]
                                  case EnqueueMany(xs) => xs
                                  case _ => []
  }

  lemma TakeFirst<T>(h: History<T>, s: seq<T>, x: T)
    requires Lawful(h) && h.firsts == FirstOccurrences(s)
    ensures Take(h, x).firsts == FirstOccurrences(s + [x])
  {
    FirstOccurrencesSnoc(s, x);
    assert x in h.queue.status <==> x in h.firsts;
  }

  lemma {:induction false} TakeFirsts<T>(h: History<T>, s: seq<T>, xs: seq<T>)
    requires Lawful(h) && h.firsts == FirstOccurrences(s)
    ensures TakeAll(h, xs).firsts == FirstOccurrences(s + xs)
  {
    if xs == [] {
      assert s + xs == s;
    } else {
      var init, last := xs[..|xs| - 1], xs[|xs| - 1];
      TakeFirsts(h, s, init);
      TakeAllKeepsLawful(h, init);
      TakeFirst(TakeAll(h, init), s + init, last);
      assert s + xs == (s + init) + [last];
    }
  }

  lemma {:induction false} FirstsAreOffered<T>(ops: seq<Op<T>>)
    ensures PerformAll(ops).firsts == FirstOccurrences(Offered(ops))
  {
    if ops != [] {
      var init := ops[..|ops| - 1];
      FirstsAreOffered(init);
      AlwaysLawful(init);
      match ops[|ops| - 1]
      case Enqueue(x) => TakeFirst(PerformAll(init), Offered(init), x);
      case EnqueueMany(xs) => TakeFirsts(PerformAll(init), Offered(init), xs);
      case _ => assert Offered(ops) == Offered(init);
    }
  }

  /** After any calls, what has been handed out and what waits are the first occurrences of everything offered, in
      order, and a pop hands out the next of them as long as there is one. */
  lemma PopsInOrder<T>(ops: seq<Op<T>>)
    ensures var h := PerformAll(ops); var order := FirstOccurrences(Offered(ops));
      && h.popped + h.queue.pending == order
      && PopResultOf(h.queue) == (if |h.popped| < |order| then Item(order[|h.popped|]) else Nothing)
      && Perform(h, Pop).popped == if |h.popped| < |order| then order[..|h.popped| + 1] else order
  {
    FirstsAreOffered(ops);
    AlwaysLawful(ops);
    PopsNext(PerformAll(ops));
  }

  lemma PopsNext<T>(h: History<T>)
    requires h.popped + h.queue.pending == h.firsts && !PopResultOf(h.queue).Panicked?
    ensures PopResultOf(h.queue) == if |h.popped| < |h.firsts| then Item(h.firsts[|h.popped|]) else Nothing
    ensures Perform(h, Pop).popped == if |h.popped| < |h.firsts| then h.firsts[..|h.popped| + 1] else h.firsts
  {
    if h.queue.pending != [] {
      assert h.firsts[|h.popped|] == h.queue.pending[0];
      assert h.firsts[..|h.popped| + 1] == h.popped + [h.queue.pending[0]];
    }
  }

  /** An item can be completed iff it has been handed out and not been completed yet. */
  lemma CompletesIffHandedOut<T>(ops: seq<Op<T>>, x: T)
    ensures var h := PerformAll(ops); Completes(h.queue, x) <==> x in h.popped && x !in h.completed
    ensures var h := PerformAll(ops);
      Perform(h, Complete(x)).completed == h.completed + if x in h.popped && x !in h.completed then [x] else []
  {
    var h := PerformAll(ops);
    AlwaysLawful(ops);
    if x in h.queue.status {
      ReservedIsPopped(h, x);
      if x in h.popped {
        var i :| 0 <= i < |h.popped| && h.popped[i] == x;
      }
    } else {
      assert x in h.popped ==> x in h.popped + h.queue.pending;
    }
    assert h.completed + [] == h.completed;
  }

  /** The bulk call takes in what repeated single calls would. */
  lemma {:induction false} BulkIsRepeated<T>(h: History<T>, xs: seq<T>)
    ensures TakeAll(h, xs).queue == EnqueueAll(h.queue, xs)
    ensures |TakeAll(h, xs).firsts| == |h.firsts| + NewCount(h.queue, xs)
  {
    if xs != [] {
      BulkIsRepeated(h, xs[..|xs| - 1]);
    }
  }

  // ---- The code -------------------------------------------------------------------------------

  class OneShotQueue<T(==)> {
    var pending: seq<T>
    var status: map<T, QueueStatus>

    ghost function State(): Queue<T>
      reads this
    {
      Queue(pending, status)
    }

    constructor ()
      ensures State() == Queue([], map[])
    {
      pending := [];
      status := map[];
    }

    method EnqueueItem(x: T) returns (isNew: bool)
      modifies this
      ensures State() == EnqueueOne(old(State()), x) && isNew == (x !in old(status))
    {
      isNew := x !in status;
      if isNew {
        status := status[x := Pending];
        pending := pending + [x];
      }
    }

    /** `enqueue_iter`: same effect as enqueueing one by one, and the count of new items. */
    method EnqueueIter(xs: seq<T>) returns (count: nat)
      modifies this
      ensures State() == EnqueueAll(old(State()), xs) && count == NewCount(old(State()), xs)
    {
      count := 0;
      for i := 0 to |xs|
        invariant State() == EnqueueAll(old(State()), xs[..i])
        invariant count == NewCount(old(State()), xs[..i])
      {
        assert xs[..i + 1][..i] == xs[..i];
        var isNew := EnqueueItem(xs[i]);
        count := count + if isNew then 1 else 0;
      }
      assert xs[..|xs|] == xs;
    }

    method PopNext() returns (r: PopResult<T>)
      modifies this
      ensures r == PopResultOf(old(State())) && State() == AfterPop(old(State()))
    {
      if pending == [] {
        return Nothing;
      }
      var next := pending[0];
      pending := pending[1..];
      if next in status && status[next].Pending? {
        status := status[next := Reserved];
        r := Item(next);
      } else {
        r := Panicked;
      }
    }

    method CompleteItem(x: T) returns (done: bool)
      modifies this
      ensures done == Completes(old(State()), x) && State() == AfterComplete(old(State()), x)
    {
      done := x in status && status[x].Reserved?;
      if done {
        status := status[x := Completed];
      }
    }
  }
}
