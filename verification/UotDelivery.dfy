/** Where a sent datagram went: onto a session that was visible, into a replay, or past one. */
module UotDelivery {
  import opened Common
  import opened RetryQueues
  import opened UotRecovery
  import opened UotRecoverySafety

  // ----------------------------------------------------------------- one write

  /** Everything a session was given: what is on its wire and what is still coalescing. */
  function Content(stream: Stream): seq<Frame> {
    stream.wire + stream.pending
  }

  /** A successful write gives the session exactly this frame, last, and leaves every other session alone. */
  lemma WriteGivesTheFrame(s: State, t: TaskId, io: IoOutcome)
    requires t in s.tasks && s.tasks[t].pc.SendWrite?
    ensures var sid := s.tasks[t].pc.sid; var s' := Apply(s, Step(t, io));
      t in s'.tasks && s'.tasks[t].pc.SendFinal? ==>
        && sid in s.net.streams && s'.net.streams.Keys == s.net.streams.Keys
        && Content(s'.net.streams[sid]) == Content(s.net.streams[sid]) + [s.tasks[t].frame]
        && forall other :: other in s.net.streams && other != sid ==> s'.net.streams[other] == s.net.streams[other]
  {
    var sid := s.tasks[t].pc.sid;
    if sid in s.net.streams {
      AppendedContent(s.net.streams[sid], s.tasks[t].frame);
    }
  }

  lemma AppendedContent(stream: Stream, frame: Frame)
    ensures forall flushed :: Content(Append(stream, frame, flushed)) == Content(stream) + [frame]
  {
    ConcatIsAssociative(stream.wire, stream.pending, [frame]);
  }

  /** Sessions only ever get more, at the end. */
  lemma ContentGrows(c: Control, n: Net, op: NetOp, sid: SessionId)
    requires SharedStreams(c, n) && sid in n.streams
    ensures sid in DoNet(n, op).streams && Content(n.streams[sid]) <= Content(DoNet(n, op).streams[sid])
  {
    var stream := n.streams[sid];
    match op {
      case WriteFrame(_, frame, _) => AppendedContent(stream, frame);
      case FlushStream(_) =>
      case BreakStream(_, frames, accepted) => TornContent(stream, frames, accepted);
      case _ =>
    }
  }

  lemma TornContent(stream: Stream, frames: seq<Frame>, accepted: nat)
    ensures Content(Torn(stream, frames, accepted)) == Content(stream) + frames
  {
    var left := stream.pending + frames;
    var k := if accepted < |left| then accepted else |left|;
    assert left == left[..k] + left[k..];
    ConcatIsAssociative(stream.wire, left[..k], left[k..]);
    ConcatIsAssociative(stream.wire, stream.pending, frames);
  }

  // ------------------------------------------------------------ carried by a session

  /** A session that was visible was given this frame. */
  ghost predicate CarriedBy(c: Control, n: Net, sid: SessionId, frame: Frame) {
    Published(c, sid) && sid in n.streams && frame in Content(n.streams[sid])
  }

  ghost predicate Carried(s: State, frame: Frame) {
    exists sid :: CarriedBy(s.control, s.net, sid, frame)
  }

  lemma PublishedStays(c: Control, op: ControlOp, t: TaskId, sid: SessionId)
    requires Published(c, sid)
    ensures Published(DoControl(c, op, t), sid)
  {
    if op.InstallSession? {
      PublishedGrows(c, op.replacement);
    }
  }

  lemma CarriedStays(s: State, e: Event, frame: Frame)
    requires Inv(s) && Carried(s, frame)
    ensures Carried(Apply(s, e), frame)
  {
    var sid :| CarriedBy(s.control, s.net, sid, frame);
    var s' := Apply(s, e);
    if e.Background? {
      ContentGrows(s.control, s.net, BackgroundOp(e.sid, e.fails, e.accepted), sid);
    } else if !(e.StartSend? || e.StartRecv? || e.StartClose?) && e.t in s.tasks {
      var d := Decide(s, s.tasks[e.t], e);
      ContentGrows(s.control, s.net, d.net, sid);
      PublishedStays(s.control, d.control, e.t, sid);
    }
    assert CarriedBy(s'.control, s'.net, sid, frame);
  }

  // -------------------------------------------------------- how a send came to an end

  predicate AtReconnect(events: seq<Event>, before: seq<Event>, after: seq<Event>, t: TaskId) {
    var s := Run(Init(), before);
    events == before + after && t in s.tasks && s.tasks[t].pc.Reconnect?
  }

  /** The send went through a reconnect at some moment of the run. */
  ghost predicate Reconnected(events: seq<Event>, t: TaskId) {
    exists before, after :: AtReconnect(events, before, after, t)
  }

  predicate OvertakenAt(events: seq<Event>, before: seq<Event>, io: IoOutcome, after: seq<Event>, t: TaskId) {
    var s := Run(Init(), before);
    && events == before + [Step(t, io)] + after
    && t in s.tasks && s.tasks[t].pc.Reconnect? && s.tasks[t].pc.caller.BySend?
    && s.tasks[t].pc.stage.CheckGeneration? && s.control.generation != s.tasks[t].pc.gen
  }

  /** Its reconnect found that another one had already replaced the failed generation. */
  ghost predicate Overtaken(events: seq<Event>, t: TaskId) {
    exists before, io, after :: OvertakenAt(events, before, io, after, t)
  }

  lemma HistoryGrows(events: seq<Event>, e: Event, t: TaskId)
    ensures Reconnected(events, t) ==> Reconnected(events + [e], t)
    ensures Overtaken(events, t) ==> Overtaken(events + [e], t)
  {
    if Reconnected(events, t) {
      var before, after :| AtReconnect(events, before, after, t);
      ConcatIsAssociative(before, after, [e]);
      assert AtReconnect(events + [e], before, after + [e], t);
    }
    if Overtaken(events, t) {
      var before, io, after :| OvertakenAt(events, before, io, after, t);
      ConcatIsAssociative(before + [Step(t, io)], after, [e]);
      assert OvertakenAt(events + [e], before, io, after + [e], t);
    }
  }

  predicate Replaying(stage: Stage) {
    stage.Replay? || stage.CheckBeforeInstall? || stage.LockSession? || stage.CheckLocked? || stage.Install?
  }

  predicate Gone(q: Queue, task: Task) {
    task.id.Some? && AckedOrCleared(q, task.id.value)
  }

  /** A sender's own reconnect replays its datagram, unless a reply or a clear took it before. */
  ghost predicate OwnReplay(s: State, task: Task) {
    task.pc.Reconnect? && task.pc.caller.BySend? ==>
      && (Replaying(task.pc.stage) ==> task.frame in task.pc.stage.unacked || Gone(s.queue, task))
      && (task.pc.stage.Bump? ==> Carried(s, task.frame) || Gone(s.queue, task))
  }

  /** A send that is about to succeed, or did. */
  ghost predicate Explained(events: seq<Event>, s: State, t: TaskId, task: Task) {
    task.pc.SendFinal? || task.pc.Sent? ==>
      || Carried(s, task.frame)
      || (Reconnected(events, t) && (Gone(s.queue, task) || Overtaken(events, t)))
  }

  // ------------------------------------------------------------------ program order

  lemma FinalFrom(s: State, task: Task, e: Event)
    ensures var d := Decide(s, task, e); var pc := task.pc;
      && (d.pc.Sent? ==> pc.Sent? || pc.SendFinal?)
      && (d.pc.SendFinal? ==>
            || pc.SendFinal?
            || (pc.SendWrite? && e.Step?)
            || (pc.Reconnect? && pc.caller.BySend? && e.Step?
                && (pc.stage.Bump? || (pc.stage.CheckGeneration? && s.control.generation != pc.gen))))
  {
  }

  lemma ReplayFrom(s: State, task: Task, e: Event)
    ensures var d := Decide(s, task, e); var pc := task.pc;
      d.pc.Reconnect? && (Replaying(d.pc.stage) || d.pc.stage.Bump?) ==>
        && pc.Reconnect? && pc.caller == d.pc.caller
        && (Replaying(d.pc.stage) ==>
              || (Replaying(pc.stage) && pc.stage.unacked == d.pc.stage.unacked)
              || (pc.stage.TakeSnapshot? && d.pc.stage.unacked == Snapshot(s.queue.retry) && d.queue.KeepQueue?))
        && (d.pc.stage.Bump? ==>
              || (pc.stage.Bump? && d.control.KeepControl?)
              || (pc.stage.Install? && d.control.InstallSession? && d.control.replacement.unacked == pc.stage.unacked))
  {
  }

  // ----------------------------------------------------------------------- the mover

  lemma SnapshotHasFrame(q: Queue, t: TaskId, task: Task)
    requires TaskIds(q, t, task) && Committed(task.pc)
    ensures task.frame in Snapshot(q.retry) || Gone(q, task)
  {
    var id := task.id.value;
    if id in Ids(q.retry) {
      var p :| p in q.retry && p.id == id;
      var i :| 0 <= i < |q.retry| && q.retry[i] == p;
      assert Snapshot(q.retry)[i] == task.frame;
    }
  }

  lemma InstalledIsCarried(c: Control, n: Net, r: Replacement, frame: Frame)
    requires SharedStreams(c, n) && r in c.installs && frame in r.unacked
    ensures CarriedBy(c, n, r.sid, frame)
  {
    var i :| 0 <= i < |r.unacked| && r.unacked[i] == frame;
    assert n.streams[r.sid].wire[i] == frame;
    assert Content(n.streams[r.sid])[i] == frame;
  }

  lemma GoneStays(s: State, u: TaskId, e: Event, task: Task)
    requires Inv(s) && u in s.tasks && Gone(s.queue, task)
    ensures Gone(DoQueue(s.queue, Decide(s, s.tasks[u], e).queue, u), task)
  {
    QueueMove(s, u, e);
  }

  /** From the snapshot on, the replay has the frame. */
  lemma OwnReplayStarts(s: State, t: TaskId, e: Event, d: Decision)
    requires Inv(s) && t in s.tasks && d == Decide(s, s.tasks[t], e) && OwnReplay(s, s.tasks[t])
    requires d.pc.Reconnect? && d.pc.caller.BySend? && Replaying(d.pc.stage)
    ensures s.tasks[t].frame in d.pc.stage.unacked || Gone(DoQueue(s.queue, d.queue, t), s.tasks[t])
  {
    var task := s.tasks[t];
    assert TaskInv(s.control, s.queue, s.net, t, task);
    ReplayFrom(s, task, e);
    if task.pc.stage.TakeSnapshot? {
      SnapshotHasFrame(s.queue, t, task);
    }
    if Gone(s.queue, task) {
      GoneStays(s, t, e, task);
    }
  }

  /** Once installed, the session carries it. */
  lemma OwnReplayLands(s: State, t: TaskId, e: Event, d: Decision)
    requires Inv(s) && t in s.tasks && d == Decide(s, s.tasks[t], e) && OwnReplay(s, s.tasks[t])
    requires Carried(s, s.tasks[t].frame) ==> Carried(Perform(s, t, s.tasks[t], d), s.tasks[t].frame)
    requires SharedStreams(DoControl(s.control, d.control, t), DoNet(s.net, d.net))
    requires d.pc.Reconnect? && d.pc.caller.BySend? && d.pc.stage.Bump?
    ensures var s' := Perform(s, t, s.tasks[t], d);
      Carried(s', s.tasks[t].frame) || Gone(s'.queue, s.tasks[t])
  {
    var task := s.tasks[t];
    var c', n' := DoControl(s.control, d.control, t), DoNet(s.net, d.net);
    ReplayFrom(s, task, e);
    if Gone(s.queue, task) {
      GoneStays(s, t, e, task);
    } else if task.pc.stage.Install? {
      assert d.control.replacement in c'.installs;
      InstalledIsCarried(c', n', d.control.replacement, task.frame);
    }
  }

  /** The mover's own replay, when it is inside a reconnect. */
  lemma OwnReplayMove(s: State, t: TaskId, e: Event, d: Decision)
    requires Inv(s) && t in s.tasks && d == Decide(s, s.tasks[t], e) && OwnReplay(s, s.tasks[t])
    requires Carried(s, s.tasks[t].frame) ==> Carried(Perform(s, t, s.tasks[t], d), s.tasks[t].frame)
    requires SharedStreams(DoControl(s.control, d.control, t), DoNet(s.net, d.net))
    ensures OwnReplay(Perform(s, t, s.tasks[t], d), After(s.tasks[t], s.queue, d))
  {
    QueueOps(s, s.tasks[t], e);
    if d.pc.Reconnect? && d.pc.caller.BySend? {
      if Replaying(d.pc.stage) {
        OwnReplayStarts(s, t, e, d);
      } else if d.pc.stage.Bump? {
        OwnReplayLands(s, t, e, d);
      }
    }
  }

  /** The mover, when this step makes it succeed. */
  lemma ExplainedMove(events: seq<Event>, s: State, t: TaskId, e: Event, d: Decision)
    requires s == Run(Init(), events) && Inv(s) && t in s.tasks && d == Decide(s, s.tasks[t], e)
    requires !e.Background? && !e.StartSend? && !e.StartRecv? && !e.StartClose? && e.t == t
    requires OwnReplay(s, s.tasks[t]) && Explained(events, s, t, s.tasks[t])
    requires Carried(s, s.tasks[t].frame) ==> Carried(Perform(s, t, s.tasks[t], d), s.tasks[t].frame)
    ensures Explained(events + [e], Perform(s, t, s.tasks[t], d), t, After(s.tasks[t], s.queue, d))
  {
    var task := s.tasks[t];
    var s' := Perform(s, t, task, d);
    FinalFrom(s, task, e);
    QueueOps(s, task, e);
    HistoryGrows(events, e, t);
    if Gone(s.queue, task) {
      GoneStays(s, t, e, task);
    }
    if d.pc.SendFinal? && task.pc.SendWrite? {
      WrittenIsCarried(s, t, e.io);
    } else if d.pc.SendFinal? && task.pc.Reconnect? {
      ThroughReconnect(events, t, e.io);
    }
  }

  lemma WrittenIsCarried(s: State, t: TaskId, io: IoOutcome)
    requires Inv(s) && t in s.tasks && s.tasks[t].pc.SendWrite?
    ensures var s' := Apply(s, Step(t, io)); s'.tasks[t].pc.SendFinal? ==> Carried(s', s.tasks[t].frame)
  {
    var sid := s.tasks[t].pc.sid;
    var s' := Apply(s, Step(t, io));
    assert TaskInv(s.control, s.queue, s.net, t, s.tasks[t]);
    WriteGivesTheFrame(s, t, io);
    if s'.tasks[t].pc.SendFinal? {
      PublishedStays(s.control, Decide(s, s.tasks[t], Step(t, io)).control, t, sid);
      assert CarriedBy(s'.control, s'.net, sid, s.tasks[t].frame);
    }
  }

  lemma ThroughReconnect(events: seq<Event>, t: TaskId, io: IoOutcome)
    requires t in Run(Init(), events).tasks && Run(Init(), events).tasks[t].pc.Reconnect?
    ensures Reconnected(events + [Step(t, io)], t)
    ensures var s := Run(Init(), events); var pc := s.tasks[t].pc;
      pc.caller.BySend? && pc.stage.CheckGeneration? && s.control.generation != pc.gen ==>
        Overtaken(events + [Step(t, io)], t)
  {
    assert AtReconnect(events + [Step(t, io)], events, [Step(t, io)], t);
    var s := Run(Init(), events);
    var pc := s.tasks[t].pc;
    if pc.caller.BySend? && pc.stage.CheckGeneration? && s.control.generation != pc.gen {
      assert events + [Step(t, io)] == events + [Step(t, io)] + [];
      assert OvertakenAt(events + [Step(t, io)], events, io, [], t);
    }
  }

  // ---------------------------------------------------------------------- every run

  ghost predicate AllExplained(events: seq<Event>, s: State) {
    forall t :: t in s.tasks ==> OwnReplay(s, s.tasks[t]) && Explained(events, s, t, s.tasks[t])
  }

  lemma OtherExplained(events: seq<Event>, s: State, e: Event, t: TaskId)
    requires s == Run(Init(), events) && Inv(s) && t in s.tasks
    requires OwnReplay(s, s.tasks[t]) && Explained(events, s, t, s.tasks[t])
    requires Gone(s.queue, s.tasks[t]) ==> Gone(Apply(s, e).queue, s.tasks[t])
    ensures OwnReplay(Apply(s, e), s.tasks[t]) && Explained(events + [e], Apply(s, e), t, s.tasks[t])
  {
    HistoryGrows(events, e, t);
    if Carried(s, s.tasks[t].frame) {
      CarriedStays(s, e, s.tasks[t].frame);
    }
  }

  lemma MoverExplained(events: seq<Event>, s: State, e: Event)
    requires s == Run(Init(), events) && Inv(s) && AllExplained(events, s)
    requires !e.Background? && !e.StartSend? && !e.StartRecv? && !e.StartClose? && e.t in s.tasks
    ensures var s' := Apply(s, e);
      e.t in s'.tasks && OwnReplay(s', s'.tasks[e.t]) && Explained(events + [e], s', e.t, s'.tasks[e.t])
  {
    var task := s.tasks[e.t];
    var d := Decide(s, task, e);
    if Carried(s, task.frame) {
      CarriedStays(s, e, task.frame);
    }
    InvStep(s, e);
    OwnReplayMove(s, e.t, e, d);
    ExplainedMove(events, s, e.t, e, d);
  }

  lemma StepExplained(events: seq<Event>, e: Event)
    requires AllExplained(events, Run(Init(), events)) && Inv(Run(Init(), events))
    ensures AllExplained(events + [e], Run(Init(), events + [e]))
  {
    RunStep(events, e);
    var s := Run(Init(), events);
    var s' := Apply(s, e);
    var moves := !e.Background? && !e.StartSend? && !e.StartRecv? && !e.StartClose? && e.t in s.tasks;
    forall t | t in s'.tasks ensures OwnReplay(s', s'.tasks[t]) && Explained(events + [e], s', t, s'.tasks[t]) {
      if moves && t == e.t {
        MoverExplained(events, s, e);
      } else if t in s.tasks {
        if moves && Gone(s.queue, s.tasks[t]) {
          GoneStays(s, e.t, e, s.tasks[t]);
        }
        OtherExplained(events, s, e, t);
      }
    }
  }

  lemma NothingToExplain()
    ensures AllExplained([], Run(Init(), []))
  {
  }

  lemma {:induction false} RunExplained(events: seq<Event>)
    ensures AllExplained(events, Run(Init(), events))
  {
    if events == [] {
      NothingToExplain();
    } else {
      var past, e := events[..|events| - 1], events[|events| - 1];
      RunExplained(past);
      InvInit();
      InvRun(Init(), past);
      assert past + [e] == events;
      StepExplained(past, e);
    }
  }

  /**
   * What success means. A send that succeeded without a reconnect gave its
   * frame to a session that was visible. One that went through a reconnect
   * did so too, unless a reply or a clear took its datagram first or another
   * reconnect had overtaken it.
   */
  lemma SentReachedASession(events: seq<Event>, t: TaskId)
    ensures var s := Run(Init(), events);
      t in s.tasks && s.tasks[t].pc.Sent? ==>
        || Carried(s, s.tasks[t].frame)
        || (Reconnected(events, t) && (Gone(s.queue, s.tasks[t]) || Overtaken(events, t)))
  {
    RunExplained(events);
  }

  lemma SentWithoutReconnect(events: seq<Event>, t: TaskId)
    ensures var s := Run(Init(), events);
      t in s.tasks && s.tasks[t].pc.Sent? && !Reconnected(events, t) ==> Carried(s, s.tasks[t].frame)
  {
    RunExplained(events);
  }

  // ----------------------------------------------------- overtaken: the exact condition

  /** The reconnect that overtook a send answered the generation the send had seen. */
  lemma OvertakerIsInstalled(events: seq<Event>, t: TaskId)
    requires var s := Run(Init(), events);
      && t in s.tasks && s.tasks[t].pc.Reconnect? && s.tasks[t].pc.stage.CheckGeneration?
      && s.control.generation != s.tasks[t].pc.gen
    ensures var c := Run(Init(), events).control; var gen := Run(Init(), events).tasks[t].pc.gen;
      1 <= gen < c.generation && gen <= |c.installs| && c.installs[gen - 1].failed == gen
  {
    RunSeen(events);
    InvInit();
    InvRun(Init(), events);
    OneInstallPerGeneration(events);
  }

  function SeenGeneration(pc: Pc): Option<nat> {
    match pc
    case SendCheck(gen) => Some(gen)
    case SendClone(gen) => Some(gen)
    case SendWrite(gen, _) => Some(gen)
    case SendRetry(gen, _, _) => Some(gen)
    case RecvCheck(gen, _) => Some(gen)
    case RecvClone(gen, _) => Some(gen)
    case RecvRead(gen, _, _) => Some(gen)
    case Reconnect(_, gen, _) => Some(gen)
    case _ => None
  }

  /** A generation a task remembers was current once, and generations only grow. */
  ghost predicate SeenIsPast(s: State) {
    s.control.generation >= 1 && forall t :: t in s.tasks ==>
      SeenGeneration(s.tasks[t].pc).Some? ==> 1 <= SeenGeneration(s.tasks[t].pc).value <= s.control.generation
  }

  lemma GenerationGrows(c: Control, op: ControlOp, t: TaskId)
    ensures DoControl(c, op, t).generation >= c.generation
  {
  }

  /** A step remembers the generation it had in mind or the current one. */
  lemma SeenFrom(s: State, task: Task, e: Event)
    ensures var seen := SeenGeneration(Decide(s, task, e).pc);
      seen.Some? ==> seen == SeenGeneration(task.pc) || seen.value == s.control.generation
  {
    if e.Step? && task.pc.Reconnect? {
      ReconnectRemembers(s, task.pc, e.io);
    } else if e.Step? {
      CallRemembers(s, task, e.io);
    }
  }

  lemma ReconnectRemembers(s: State, pc: Pc, io: IoOutcome)
    requires pc.Reconnect?
    ensures var seen := SeenGeneration(ReconnectDecision(s, pc.caller, pc.gen, pc.stage, io).pc);
      seen.Some? ==> seen.value == pc.gen
  {
  }

  lemma CallRemembers(s: State, task: Task, io: IoOutcome)
    ensures var sent := SeenGeneration(SendDecision(s, task, io).pc);
      sent.Some? ==> sent == SeenGeneration(task.pc) || sent.value == s.control.generation
    ensures var received := SeenGeneration(RecvDecision(s, task, io).pc);
      received.Some? ==> received == SeenGeneration(task.pc) || received.value == s.control.generation
  {
  }

  lemma SeenStep(s: State, e: Event)
    requires SeenIsPast(s)
    ensures SeenIsPast(Apply(s, e))
  {
    if !e.Background? && !e.StartSend? && !e.StartRecv? && !e.StartClose? && e.t in s.tasks {
      SeenFrom(s, s.tasks[e.t], e);
      GenerationGrows(s.control, Decide(s, s.tasks[e.t], e).control, e.t);
    }
  }

  lemma {:induction false} RunSeen(events: seq<Event>)
    ensures SeenIsPast(Run(Init(), events))
  {
    if events != [] {
      RunSeen(events[..|events| - 1]);
      SeenStep(Run(Init(), events[..|events| - 1]), events[|events| - 1]);
    }
  }

  /** No other queued datagram looks like this one. */
  ghost predicate Unmistakable(q: Queue, task: Task) {
    task.id.Some? && forall p :: p in q.retry && Frame(p.target, p.payload) == task.frame ==> p.id == task.id.value
  }

  /** A snapshot has a datagram exactly when the datagram is in the queue. */
  lemma SnapshotHasExactly(q: Queue, t: TaskId, task: Task)
    requires TaskIds(q, t, task) && Unmistakable(q, task)
    ensures task.frame in Snapshot(q.retry) <==> task.id.value in Ids(q.retry)
  {
    if task.id.value in Ids(q.retry) {
      var p :| p in q.retry && p.id == task.id.value;
      var i :| 0 <= i < |q.retry| && q.retry[i] == p;
      assert Snapshot(q.retry)[i] == task.frame;
    }
    if task.frame in Snapshot(q.retry) {
      var i :| 0 <= i < |q.retry| && Snapshot(q.retry)[i] == task.frame;
      assert q.retry[i] in q.retry;
    }
  }

  /**
   * Take any reconnect at its queue snapshot and any continuation in which
   * its session becomes visible. The replay is the first thing on that
   * session's wire, and it has a send's frame if and only if the send's
   * datagram was in the queue at the snapshot: a snapshot taken before the
   * push leaves the frame out.
   */
  lemma ReplayedExactlyWhenQueued(before: seq<Event>, u: TaskId, io: IoOutcome, after: seq<Event>, sid: SessionId,
                                  t: TaskId)
    requires var s := Run(Init(), before);
      && u in s.tasks && s.tasks[u].pc.Reconnect? && s.tasks[u].pc.stage == TakeSnapshot(sid)
      && t in s.tasks && Unmistakable(s.queue, s.tasks[t])
    ensures var s := Run(Init(), before); var s' := Run(Apply(s, Step(u, io)), after); var n := |s.queue.retry|;
      Published(s'.control, sid) ==>
        && sid in s'.net.streams && n <= |s'.net.streams[sid].wire|
        && s'.net.streams[sid].wire[..n] == Snapshot(s.queue.retry)
        && (s.tasks[t].frame in s'.net.streams[sid].wire[..n] <==> s.tasks[t].id.value in Ids(s.queue.retry))
        && (s.tasks[t].pc.SendPush? ==> s.tasks[t].frame !in s'.net.streams[sid].wire[..n])
  {
    var s := Run(Init(), before);
    InvInit();
    InvRun(Init(), before);
    assert TaskInv(s.control, s.queue, s.net, t, s.tasks[t]);
    SnapshotHasExactly(s.queue, t, s.tasks[t]);
    InvStep(s, Step(u, io));
    var s1 := Apply(s, Step(u, io));
    SnapshotStarts(s, u, io, sid);
    TrackedRun(s1, after, sid, Snapshot(s.queue.retry));
    InvRun(s1, after);
    ReplayLeads(Run(s1, after), sid, Snapshot(s.queue.retry));
  }

  lemma ReplayLeads(s: State, sid: SessionId, unacked: seq<Frame>)
    requires Inv(s) && Tracked(s, sid, unacked) && sid != FIRST_SESSION
    ensures Published(s.control, sid) ==>
      && sid in s.net.streams && |unacked| <= |s.net.streams[sid].wire|
      && s.net.streams[sid].wire[..|unacked|] == unacked
  {
  }
}
