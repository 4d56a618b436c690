/** The server-sent event stream of one connection: catch-up first, then the owner's share of the broadcasts,
    with heartbeats in between and an end that is final. */
module SseStream {
  import opened Options
  import opened Catchup

  datatype Event = Event(ownerId: Option<int>, update: Update)

  datatype Frame = Heartbeat | TaskStatus(event: Event)

  /** Which point of the loop the stream stands at: about to check the shutdown flag, or waiting in select. */
  datatype Phase = Top | Waiting

  /** `log` is everything broadcast since subscription and `cursor` the next one this receiver reads;
      `orphaned` says that the holder of the shutdown flag is gone. */
  datatype Stream = Stream(
    userId: int, catchup: seq<Event>, replayed: nat, capacity: nat,
    log: seq<Event>, cursor: nat, closed: bool, shutdown: bool, orphaned: bool,
    phase: Phase, ended: bool, frames: seq<Frame>)

  datatype Step =
    | Broadcast(event: Event)   // environment: someone sends
    | DropSenders               // environment: the channel closes
    | SetShutdown(value: bool)  // environment: the watch flag changes
    | DropFlag                  // environment: the holder of the flag goes away
    | EmitCatchup
    | CheckShutdown
    | DeadlineFires
    | HeartbeatFires
    | ShutdownChanged
    | Recv

  predicate Init(s: Stream) {
    s.replayed == 0 && s.log == [] && s.cursor == 0 && s.phase == Top && !s.ended && s.frames == []
  }

  predicate Live(s: Stream) {
    s.replayed == |s.catchup| && !s.ended
  }

  predicate Enabled(s: Stream, step: Step) {
    match step
    case Broadcast(_) => !s.closed
    case DropSenders => true
    case SetShutdown(_) => !s.orphaned
    case DropFlag => true
    case EmitCatchup => s.replayed < |s.catchup| && !s.ended
    case CheckShutdown => Live(s) && s.phase.Top?
    case DeadlineFires => Live(s) && s.phase.Waiting?
    case HeartbeatFires => Live(s) && s.phase.Waiting?
    case ShutdownChanged => Live(s) && s.phase.Waiting?
    case Recv => Live(s) && s.phase.Waiting? && (s.cursor < |s.log| || s.closed)
  }

  /** The ring has overwritten the next event of this receiver. */
  predicate Lagged(s: Stream) {
    |s.log| - s.cursor > s.capacity
  }

  function AfterRecv(s: Stream): Stream {
    if Lagged(s) then s.(ended := true)
    else if s.cursor >= |s.log| then s.(ended := true)
    else
      var event := s.log[s.cursor];
      s.(cursor := s.cursor + 1, phase := Top,
         frames := if event.ownerId == Some(s.userId) then s.frames + [TaskStatus(event)] else s.frames)
  }

  function Next(s: Stream, step: Step): Stream
    requires Enabled(s, step)
  {
    match step
    case Broadcast(event) => s.(log := s.log + [event])
    case DropSenders => s.(closed := true)
    case SetShutdown(value) => s.(shutdown := value)
    case DropFlag => s.(orphaned := true)
    case EmitCatchup => s.(replayed := s.replayed + 1, frames := s.frames + [TaskStatus(s.catchup[s.replayed])])
    case CheckShutdown => if s.shutdown then s.(ended := true) else s.(phase := Waiting)
    case DeadlineFires => s.(ended := true)
    case HeartbeatFires => s.(phase := Top, frames := s.frames + [Heartbeat])
    case ShutdownChanged => if s.shutdown || s.orphaned then s.(ended := true) else s.(phase := Top)
    case Recv => AfterRecv(s)
  }

  predicate StepAt(ss: seq<Stream>, steps: seq<Step>, i: nat)
    requires |ss| == |steps| + 1 && i < |steps|
  {
    Enabled(ss[i], steps[i]) && ss[i + 1] == Next(ss[i], steps[i])
  }

  predicate IsRun(ss: seq<Stream>, steps: seq<Step>) {
    |ss| == |steps| + 1 && Init(ss[0]) && forall i | 0 <= i < |steps| :: StepAt(ss, steps, i)
  }

  // ---- What a client sees ---------------------------------------------------------------------

  /** The task-status events among the frames. */
  function StatusEvents(frames: seq<Frame>): seq<Event> {
    if frames == [] then []
    else
      var last := frames[|frames| - 1];
      StatusEvents(frames[..|frames| - 1]) + if last.TaskStatus? then [last.event] else []
  }

  /** The owner's events among the first `n` broadcasts. */
  function OwnersShare(log: seq<Event>, n: nat, userId: int): seq<Event>
    requires n <= |log|
  {
    if n == 0 then []
    else OwnersShare(log, n - 1, userId) + if log[n - 1].ownerId == Some(userId) then [log[n - 1]] else []
  }

  /** The events broadcast since subscription, from the steps alone. */
  function Broadcasts(steps: seq<Step>, n: nat): seq<Event>
    requires n <= |steps|
  {
    if n == 0 then []
    else Broadcasts(steps, n - 1) + if steps[n - 1].Broadcast? then [steps[n - 1].event] else []
  }

  function Heartbeats(frames: seq<Frame>): nat {
    if frames == [] then 0
    else Heartbeats(frames[..|frames| - 1]) + if frames[|frames| - 1].Heartbeat? then 1 else 0
  }

  /** How often the heartbeat timer fired, from the steps alone. */
  function Beats(steps: seq<Step>, n: nat): nat
    requires n <= |steps|
  {
    if n == 0 then 0 else Beats(steps, n - 1) + if steps[n - 1].HeartbeatFires? then 1 else 0
  }

  /** Every heartbeat that fires is one frame, and no other frame is a heartbeat. */
  lemma {:induction false} HeartbeatsAreExact(ss: seq<Stream>, steps: seq<Step>, n: nat)
    requires IsRun(ss, steps) && n < |ss|
    ensures Heartbeats(ss[n].frames) == Beats(steps, n)
  {
    if n > 0 {
      HeartbeatsAreExact(ss, steps, n - 1);
      assert StepAt(ss, steps, n - 1);
      var frames, frames' := ss[n - 1].frames, ss[n].frames;
      assert frames' != frames ==> frames'[..|frames'| - 1] == frames;
    }
  }

  predicate GapFree(s: Stream) {
    && s.replayed <= |s.catchup| && s.cursor <= |s.log|
    && (s.replayed < |s.catchup| ==> s.cursor == 0)
    && StatusEvents(s.frames) == s.catchup[..s.replayed] + OwnersShare(s.log, s.cursor, s.userId)
  }

  lemma StatusSnoc(frames: seq<Frame>, frame: Frame)
    ensures StatusEvents(frames + [frame]) == StatusEvents(frames) + if frame.TaskStatus? then [frame.event] else []
  {
    assert (frames + [frame])[..|frames|] == frames;
  }

  lemma {:induction false} ShareStable(log: seq<Event>, more: seq<Event>, n: nat, userId: int)
    requires n <= |log|
    ensures OwnersShare(log + more, n, userId) == OwnersShare(log, n, userId)
  {
    if n > 0 {
      ShareStable(log, more, n - 1, userId);
    }
  }

  lemma RecvKeepsGapFree(s: Stream)
    requires GapFree(s) && Enabled(s, Recv)
    ensures GapFree(AfterRecv(s))
  {
    if !Lagged(s) && s.cursor < |s.log| {
      var event := s.log[s.cursor];
      StatusSnoc(s.frames, TaskStatus(event));
      var share := OwnersShare(s.log, s.cursor, s.userId);
      assert s.catchup[..s.replayed] + (share + [event]) == (s.catchup[..s.replayed] + share) + [event];
    }
  }

  lemma GapFreeStep(s: Stream, step: Step)
    requires GapFree(s) && Enabled(s, step)
    ensures GapFree(Next(s, step))
    ensures Next(s, step).catchup == s.catchup && Next(s, step).userId == s.userId
    ensures Next(s, step).capacity == s.capacity
    ensures Next(s, step).log == s.log + if step.Broadcast? then [step.event] else []
    ensures s.log <= Next(s, step).log && s.cursor <= Next(s, step).cursor
    ensures s.ended ==> Next(s, step).ended && Next(s, step).frames == s.frames && Next(s, step).cursor == s.cursor
  {
    match step
    case Broadcast(event) => ShareStable(s.log, [event], s.cursor, s.userId);
    case EmitCatchup =>
      StatusSnoc(s.frames, TaskStatus(s.catchup[s.replayed]));
      assert s.catchup[..s.replayed + 1] + [] == s.catchup[..s.replayed] + [] + [s.catchup[s.replayed]];
    case HeartbeatFires => StatusSnoc(s.frames, Heartbeat);
    case Recv => RecvKeepsGapFree(s);
    case _ =>
  }

  /** In every reachable state, for every order of select branches, ring capacity and heartbeat timing, the
      task-status frames are the catch-up list followed by the owner's share of a contiguous prefix of the
      broadcasts since subscription. */
  lemma {:induction false} StreamIsGapFree(ss: seq<Stream>, steps: seq<Step>, n: nat)
    requires IsRun(ss, steps) && n < |ss|
    ensures GapFree(ss[n]) && ss[n].log == Broadcasts(steps, n)
    ensures ss[n].catchup == ss[0].catchup && ss[n].userId == ss[0].userId && ss[n].capacity == ss[0].capacity
    ensures StatusEvents(ss[n].frames)
      == ss[0].catchup[..ss[n].replayed] + OwnersShare(Broadcasts(steps, n), ss[n].cursor, ss[0].userId)
  {
    if n > 0 {
      StreamIsGapFree(ss, steps, n - 1);
      assert StepAt(ss, steps, n - 1);
      GapFreeStep(ss[n - 1], steps[n - 1]);
    }
  }

  /** After the stream has ended no frame follows. */
  lemma {:induction false} EndIsFinal(ss: seq<Stream>, steps: seq<Step>, n: nat, m: nat)
    requires IsRun(ss, steps) && n <= m < |ss| && ss[n].ended
    ensures ss[m].ended && ss[m].frames == ss[n].frames
    decreases m
  {
    if n < m {
      EndIsFinal(ss, steps, n, m - 1);
      StreamIsGapFree(ss, steps, m - 1);
      assert StepAt(ss, steps, m - 1);
      GapFreeStep(ss[m - 1], steps[m - 1]);
    }
  }

  /** A receive on a lagged receiver, a fired deadline and an observed shutdown each end the stream at once,
      so a gap in the ring never shows as a gap in the frames. */
  lemma LagDeadlineAndShutdownEnd(ss: seq<Stream>, steps: seq<Step>, i: nat)
    requires IsRun(ss, steps) && i < |steps|
    requires || steps[i].DeadlineFires? || (steps[i].Recv? && Lagged(ss[i]))
      || ((steps[i].CheckShutdown? || steps[i].ShutdownChanged?) && ss[i].shutdown)
    ensures forall m | i < m < |ss| :: ss[m].ended && ss[m].frames == ss[i].frames
  {
    assert StepAt(ss, steps, i);
    forall m | i < m < |ss| ensures ss[m].ended && ss[m].frames == ss[i].frames {
      EndIsFinal(ss, steps, i + 1, m);
    }
  }

  /** A receive hands over the next broadcast, to the owner's client as a frame, unless more than the ring holds are
      unread or the closed channel is drained: exactly then it ends the stream. */
  lemma ReceiveDelivers(ss: seq<Stream>, steps: seq<Step>, i: nat)
    requires IsRun(ss, steps) && i < |steps| && steps[i].Recv?
    ensures var s, s' := ss[i], ss[i + 1]; var log := Broadcasts(steps, i);
      if |log| - s.cursor > ss[0].capacity || s.cursor >= |log| then s'.ended && s'.frames == s.frames
      else
        var event := log[s.cursor];
        && !s'.ended && s'.cursor == s.cursor + 1
        && s'.frames == s.frames + if event.ownerId == Some(ss[0].userId) then [TaskStatus(event)] else []
  {
    assert StepAt(ss, steps, i);
    StreamIsGapFree(ss, steps, i);
    assert ss[i].frames + [] == ss[i].frames;
  }

  /** Nothing else ends a stream but a fired deadline, an observed shutdown, or a flag whose holder is gone. */
  lemma EndHasACause(ss: seq<Stream>, steps: seq<Step>, i: nat)
    requires IsRun(ss, steps) && i < |steps| && !ss[i].ended && ss[i + 1].ended
    ensures || steps[i].DeadlineFires? || (steps[i].CheckShutdown? && ss[i].shutdown)
      || (steps[i].ShutdownChanged? && (ss[i].shutdown || ss[i].orphaned))
      || (steps[i].Recv? && (|Broadcasts(steps, i)| - ss[i].cursor > ss[0].capacity
                             || ss[i].cursor >= |Broadcasts(steps, i)|))
  {
    assert StepAt(ss, steps, i);
    StreamIsGapFree(ss, steps, i);
  }
}
