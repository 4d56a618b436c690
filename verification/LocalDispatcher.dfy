/** The in-process queue: one dispatcher takes jobs in order and a semaphore bounds the workers. */
module LocalDispatcher {
  import opened Options

  type Job = int

  /** `running` holds positions in `dispatched`. */
  datatype Dispatcher = Dispatcher(
    limit: nat, alive: bool, permits: nat, queued: seq<Job>, held: Option<Job>,
    running: set<nat>, dispatched: seq<Job>)

  datatype Step =
    | Send(job: Job)
    | Receive
    | Dispatch
    | Finish(worker: nat)
    | Shutdown

  /** `connect`: at least one worker. */
  predicate Init(d: Dispatcher) {
    d.limit >= 1 && d == Dispatcher(d.limit, true, d.limit, [], None, {}, [])
  }

  function Connect(configured: nat): (d: Dispatcher)
    ensures Init(d) && d.limit == if configured >= 1 then configured else 1
  {
    var limit := if configured < 1 then 1 else configured;
    Dispatcher(limit, true, limit, [], None, {}, [])
  }

  predicate Enabled(d: Dispatcher, step: Step) {
    match step
    case Send(_) => true
    case Receive => d.alive && d.held.None? && d.queued != []
    case Dispatch => d.alive && d.held.Some? && d.permits > 0
    case Finish(worker) => worker in d.running
    case Shutdown => d.alive
  }

  /** Enqueueing after shutdown is an error and changes nothing; aborting the dispatcher drops the held and
      the queued jobs while running workers go on. */
  function Next(d: Dispatcher, step: Step): Dispatcher
    requires Enabled(d, step)
  {
    match step
    case Send(job) => if d.alive then d.(queued := d.queued + [job]) else d
    case Receive => d.(held := Some(d.queued[0]), queued := d.queued[1..])
    case Dispatch =>
      d.(held := None, permits := d.permits - 1, running := d.running + {|d.dispatched|},
         dispatched := d.dispatched + [d.held.value])
    case Finish(worker) => d.(running := d.running - {worker}, permits := d.permits + 1)
    case Shutdown => d.(alive := false, held := None, queued := [])
  }

  predicate StepAt(ds: seq<Dispatcher>, steps: seq<Step>, i: nat)
    requires |ds| == |steps| + 1 && i < |steps|
  {
    Enabled(ds[i], steps[i]) && ds[i + 1] == Next(ds[i], steps[i])
  }

  predicate IsRun(ds: seq<Dispatcher>, steps: seq<Step>) {
    |ds| == |steps| + 1 && Init(ds[0]) && forall i | 0 <= i < |steps| :: StepAt(ds, steps, i)
  }

  function Held(d: Dispatcher): seq<Job> {
    if d.held.Some? then [d.held.value] else []
  }

  // ---- The history, from the steps alone ------------------------------------------------------

  /** The queue is shut down within the first `n` steps. */
  predicate ShutDown(steps: seq<Step>, n: nat)
    requires n <= |steps|
  {
    exists i | 0 <= i < n :: steps[i].Shutdown?
  }

  /** The jobs sent before any shutdown, in order. */
  function Sent(steps: seq<Step>, n: nat): seq<Job>
    requires n <= |steps|
  {
    if n == 0 then []
    else Sent(steps, n - 1) + if steps[n - 1].Send? && !ShutDown(steps, n - 1) then [steps[n - 1].job] else []
  }

  function Dispatches(steps: seq<Step>, n: nat): nat
    requires n <= |steps|
  {
    if n == 0 then 0 else Dispatches(steps, n - 1) + if steps[n - 1].Dispatch? then 1 else 0
  }

  /** Worker `r` has not finished within the first `n` steps. */
  predicate Unfinished(steps: seq<Step>, n: nat, r: nat)
    requires n <= |steps|
  {
    forall i | 0 <= i < n :: steps[i] != Finish(r)
  }

  /** What was dispatched, is held and is queued makes up the jobs sent, in order; after a shutdown the dispatched
      ones are a prefix of them. */
  predicate InOrder(d: Dispatcher, steps: seq<Step>, n: nat)
    requires n <= |steps|
  {
    && (d.alive <==> !ShutDown(steps, n))
    && (d.alive ==> d.dispatched + Held(d) + d.queued == Sent(steps, n))
    && (!d.alive ==> d.held.None? && d.queued == [])
    && d.dispatched <= Sent(steps, n)
  }

  /** A worker runs iff it was dispatched and has not finished; only dispatched ones finish. */
  predicate WorkerOk(d: Dispatcher, steps: seq<Step>, n: nat, r: nat)
    requires n <= |steps|
  {
    && (r in d.running <==> r < |d.dispatched| && Unfinished(steps, n, r))
    && (r >= |d.dispatched| ==> Unfinished(steps, n, r))
  }

  ghost predicate WorkersOk(d: Dispatcher, steps: seq<Step>, n: nat)
    requires n <= |steps|
  {
    forall r: nat :: WorkerOk(d, steps, n, r)
  }

  /** Permits are conserved. */
  predicate Bounded(d: Dispatcher, steps: seq<Step>, n: nat)
    requires n <= |steps|
  {
    d.limit >= 1 && d.permits + |d.running| == d.limit && |d.dispatched| == Dispatches(steps, n)
  }

  ghost predicate Invariant(d: Dispatcher, steps: seq<Step>, n: nat)
    requires n <= |steps|
  {
    InOrder(d, steps, n) && WorkersOk(d, steps, n) && Bounded(d, steps, n)
  }

  lemma ShutDownStep(steps: seq<Step>, n: nat)
    requires n < |steps|
    ensures ShutDown(steps, n + 1) <==> ShutDown(steps, n) || steps[n].Shutdown?
  {
  }

  lemma UnfinishedStep(steps: seq<Step>, n: nat, r: nat)
    requires n < |steps|
    ensures Unfinished(steps, n + 1, r) <==> Unfinished(steps, n, r) && steps[n] != Finish(r)
  {
  }

  lemma OrderStep(d: Dispatcher, steps: seq<Step>, n: nat)
    requires n < |steps| && InOrder(d, steps, n) && Enabled(d, steps[n])
    ensures InOrder(Next(d, steps[n]), steps, n + 1)
  {
    ShutDownStep(steps, n);
    match steps[n]
    case Send(job) =>
      if d.alive {
        assert d.dispatched + Held(d) + (d.queued + [job]) == Sent(steps, n) + [job];
      }
    case Receive =>
      assert d.dispatched + [d.queued[0]] + d.queued[1..] == d.dispatched + [] + d.queued;
    case Dispatch =>
      assert d.dispatched + [d.held.value] + [] + d.queued == Sent(steps, n);
    case Finish(worker) =>
    case Shutdown =>
  }

  lemma WorkersStep(d: Dispatcher, steps: seq<Step>, n: nat)
    requires n < |steps| && WorkersOk(d, steps, n) && Enabled(d, steps[n])
    ensures WorkersOk(Next(d, steps[n]), steps, n + 1)
  {
    var d', m := Next(d, steps[n]), n + 1;
    forall r: nat ensures WorkerOk(d', steps, m, r) {
      assert WorkerOk(d, steps, n, r);
      UnfinishedStep(steps, n, r);
    }
  }

  lemma BoundedStep(d: Dispatcher, steps: seq<Step>, n: nat)
    requires n < |steps| && WorkersOk(d, steps, n) && Bounded(d, steps, n) && Enabled(d, steps[n])
    ensures Bounded(Next(d, steps[n]), steps, n + 1)
  {
    assert WorkerOk(d, steps, n, |d.dispatched|);
  }

  lemma InvariantHolds(ds: seq<Dispatcher>, steps: seq<Step>, n: nat)
    requires IsRun(ds, steps) && n < |ds|
    ensures Invariant(ds[n], steps, n) && ds[n].limit == ds[0].limit
  {
    for i := 0 to n
      invariant Invariant(ds[i], steps, i) && ds[i].limit == ds[0].limit
    {
      assert StepAt(ds, steps, i);
      OrderStep(ds[i], steps, i);
      WorkersStep(ds[i], steps, i);
      BoundedStep(ds[i], steps, i);
    }
  }

  /** In every reachable state at most `limit` workers run, namely the dispatched and unfinished ones. While no
      shutdown has happened, the jobs dispatched, the one held and the queued ones concatenate to the jobs sent:
      every one is taken in, first in first out, each once. After a shutdown nothing more is taken in. */
  lemma BoundedAndFifo(ds: seq<Dispatcher>, steps: seq<Step>, n: nat)
    requires IsRun(ds, steps) && n < |ds|
    ensures |ds[n].running| + ds[n].permits == ds[n].limit == ds[0].limit
    ensures forall r: nat :: WorkerOk(ds[n], steps, n, r)
    ensures !ShutDown(steps, n) ==> ds[n].dispatched + Held(ds[n]) + ds[n].queued == Sent(steps, n)
    ensures ShutDown(steps, n) ==> ds[n].queued == [] && ds[n].held.None?
    ensures ds[n].dispatched <= Sent(steps, n) && |ds[n].dispatched| == Dispatches(steps, n)
  {
    InvariantHolds(ds, steps, n);
  }

  /** A live dispatcher with work and nothing running can always go on. */
  lemma NeverStuck(ds: seq<Dispatcher>, steps: seq<Step>, n: nat)
    requires IsRun(ds, steps) && n < |ds|
    requires ds[n].alive && ds[n].running == {} && (ds[n].held.Some? || ds[n].queued != [])
    ensures Enabled(ds[n], Receive) || Enabled(ds[n], Dispatch)
  {
    InvariantHolds(ds, steps, n);
  }

  /** With a free permit work always moves; only a full house makes it wait. */
  lemma WaitsOnlyWhenFull(ds: seq<Dispatcher>, steps: seq<Step>, n: nat)
    requires IsRun(ds, steps) && n < |ds| && ds[n].alive && (ds[n].held.Some? || ds[n].queued != [])
    ensures !Enabled(ds[n], Receive) && !Enabled(ds[n], Dispatch) ==> ds[n].held.Some? && |ds[n].running| == ds[n].limit
  {
    InvariantHolds(ds, steps, n);
  }

  /** Nothing is dispatched after shutdown. */
  lemma {:induction false} NothingAfterShutdown(ds: seq<Dispatcher>, steps: seq<Step>, n: nat, m: nat)
    requires IsRun(ds, steps) && n <= m < |ds| && ShutDown(steps, n)
    ensures ds[m].dispatched == ds[n].dispatched && Sent(steps, m) == Sent(steps, n)
    decreases m
  {
    if n < m {
      NothingAfterShutdown(ds, steps, n, m - 1);
      InvariantHolds(ds, steps, m - 1);
      assert StepAt(ds, steps, m - 1);
    }
  }
}
