/** What every interleaving of the recovery steps keeps, and what follows from it. */
module UotRecoverySafety {
  import opened Common
  import opened RetryQueues
  import opened UotRecovery

  // The invariant has a part about the shared fields and a part about each task.

  predicate HoldsReconnectLock(pc: Pc) {
    pc.Reconnect? && !pc.stage.CheckOpen? && !pc.stage.Lock?
  }

  predicate HoldsSessionLock(pc: Pc) {
    pc.Reconnect? && (pc.stage.CheckLocked? || pc.stage.Install? || pc.stage.Bump?)
  }

  predicate PastGenerationCheck(pc: Pc) {
    HoldsReconnectLock(pc) && !pc.stage.RecheckOpen? && !pc.stage.CheckGeneration?
  }

  /** Each lock is held by the task whose program counter says so; a generation read under it stays current. */
  ghost predicate TaskLocks(c: Control, t: TaskId, pc: Pc) {
    && (HoldsReconnectLock(pc) <==> c.reconnectLock == Some(t))
    && (HoldsSessionLock(pc) <==> c.sessionLock == Some(t))
    && (PastGenerationCheck(pc) ==> pc.gen == c.generation)
    && (HoldsSessionLock(pc) ==> 1 + |c.installs| == c.generation + (if pc.stage.Bump? then 1 else 0))
  }

  ghost predicate SharedLocks(c: Control) {
    && (c.sessionLock.None? ==> 1 + |c.installs| == c.generation)
    && (forall i :: 0 <= i < |c.installs| ==> c.installs[i].failed == i + 1)
  }

  lemma LocksReconnect(s: State, t: TaskId, caller: Caller, gen: nat, stage: Stage, io: IoOutcome)
    requires SharedLocks(s.control) && TaskLocks(s.control, t, Reconnect(caller, gen, stage))
    ensures var d := ReconnectDecision(s, caller, gen, stage, io);
      && SharedLocks(DoControl(s.control, d.control, t))
      && TaskLocks(DoControl(s.control, d.control, t), t, d.pc)
  {
  }

  lemma LocksMove(s: State, t: TaskId, task: Task, e: Event)
    requires SharedLocks(s.control) && TaskLocks(s.control, t, task.pc)
    ensures var d := Decide(s, task, e);
      && SharedLocks(DoControl(s.control, d.control, t))
      && TaskLocks(DoControl(s.control, d.control, t), t, d.pc)
  {
    if e.Step? && task.pc.Reconnect? {
      LocksReconnect(s, t, task.pc.caller, task.pc.gen, task.pc.stage, e.io);
    }
  }

  /** Locks are taken when free, and only their holder installs or bumps. */
  predicate LawfulControl(c: Control, op: ControlOp, t: TaskId) {
    && (op.LockReconnect? ==> c.reconnectLock.None?)
    && (op.LockSessionSlot? ==> c.sessionLock.None?)
    && (op.InstallSession? || op.BumpAndUnlock? ==> c.reconnectLock == Some(t) && c.sessionLock == Some(t))
  }

  lemma ControlIsLawful(s: State, t: TaskId, task: Task, e: Event)
    requires TaskLocks(s.control, t, task.pc)
    ensures LawfulControl(s.control, Decide(s, task, e).control, t)
  {
  }

  lemma LocksOther(s: State, t: TaskId, task: Task, e: Event, u: TaskId, other: Pc)
    requires SharedLocks(s.control) && TaskLocks(s.control, t, task.pc)
    requires u != t && TaskLocks(s.control, u, other)
    ensures TaskLocks(DoControl(s.control, Decide(s, task, e).control, t), u, other)
  {
    ControlIsLawful(s, t, task, e);
    LocksKept(s.control, Decide(s, task, e).control, t, u, other);
  }

  lemma LocksKept(c: Control, op: ControlOp, t: TaskId, u: TaskId, other: Pc)
    requires LawfulControl(c, op, t) && u != t && TaskLocks(c, u, other)
    ensures TaskLocks(DoControl(c, op, t), u, other)
  {
  }

  // -------------------------------------------------------------- streams

  /** A session some task other than its opener may have seen. */
  ghost predicate Published(c: Control, sid: SessionId) {
    sid == FIRST_SESSION || exists r :: r in c.installs && r.sid == sid
  }

  ghost predicate SharedStreams(c: Control, n: Net) {
    && FIRST_SESSION in n.streams
    && (forall sid :: sid in n.streams ==> sid < n.nextSession)
    && (c.session.Some? ==> Published(c, c.session.value))
    && (forall r :: r in c.installs ==> r.sid in n.streams && r.unacked <= n.streams[r.sid].wire)
  }

  /** The replacement a reconnect is preparing: nobody else can reach it, and it carries the replay so far. */
  ghost predicate Preparing(c: Control, n: Net, sid: SessionId, wire: seq<Frame>) {
    && sid in n.streams
    && !Published(c, sid)
    && n.streams[sid].wire + n.streams[sid].pending == wire
  }

  ghost predicate TaskStreams(c: Control, n: Net, pc: Pc) {
    match pc
    case SendWrite(_, sid) => Published(c, sid)
    case Reconnect(_, _, TakeSnapshot(sid)) => Preparing(c, n, sid, [])
    case Reconnect(_, _, Replay(sid, unacked, next)) => next <= |unacked| && Preparing(c, n, sid, unacked[..next])
    case Reconnect(_, _, CheckBeforeInstall(sid, unacked)) => Replayed(c, n, sid, unacked)
    case Reconnect(_, _, LockSession(sid, unacked)) => Replayed(c, n, sid, unacked)
    case Reconnect(_, _, CheckLocked(sid, unacked)) => Replayed(c, n, sid, unacked)
    case Reconnect(_, _, Install(sid, unacked)) => Replayed(c, n, sid, unacked)
    case _ => true
  }

  ghost predicate Replayed(c: Control, n: Net, sid: SessionId, unacked: seq<Frame>) {
    Preparing(c, n, sid, unacked) && n.streams[sid].wire == unacked
  }

  /** Connections are only ever appended to. */
  lemma WiresGrow(c: Control, n: Net, op: NetOp)
    requires SharedStreams(c, n)
    ensures SharedStreams(c, DoNet(n, op))
  {
    var n' := DoNet(n, op);
    assert forall sid :: sid in n.streams ==> sid in n'.streams && n.streams[sid].wire <= n'.streams[sid].wire;
  }

  /** The streams invariant after a decision, for the task that took it. */
  ghost predicate StreamsAfter(s: State, t: TaskId, d: Decision) {
    && SharedStreams(DoControl(s.control, d.control, t), DoNet(s.net, d.net))
    && TaskStreams(DoControl(s.control, d.control, t), DoNet(s.net, d.net), d.pc)
  }

  predicate Early(stage: Stage) {
    stage.CheckOpen? || stage.Lock? || stage.RecheckOpen? || stage.CheckGeneration? || stage.Connect?
  }

  lemma StreamsEarly(s: State, t: TaskId, caller: Caller, gen: nat, stage: Stage, io: IoOutcome)
    requires SharedStreams(s.control, s.net) && Early(stage)
    ensures StreamsAfter(s, t, ReconnectDecision(s, caller, gen, stage, io))
  {
    WiresGrow(s.control, s.net, ReconnectDecision(s, caller, gen, stage, io).net);
  }

  lemma StreamsReplay(s: State, t: TaskId, caller: Caller, gen: nat, stage: Stage, io: IoOutcome)
    requires SharedStreams(s.control, s.net) && TaskStreams(s.control, s.net, Reconnect(caller, gen, stage))
    requires stage.TakeSnapshot? || stage.Replay?
    ensures StreamsAfter(s, t, ReconnectDecision(s, caller, gen, stage, io))
  {
    WiresGrow(s.control, s.net, ReconnectDecision(s, caller, gen, stage, io).net);
  }

  lemma StreamsLate(s: State, t: TaskId, caller: Caller, gen: nat, stage: Stage, io: IoOutcome)
    requires SharedStreams(s.control, s.net) && TaskStreams(s.control, s.net, Reconnect(caller, gen, stage))
    requires !Early(stage) && !stage.TakeSnapshot? && !stage.Replay?
    ensures StreamsAfter(s, t, ReconnectDecision(s, caller, gen, stage, io))
  {
  }

  lemma StreamsReconnect(s: State, t: TaskId, caller: Caller, gen: nat, stage: Stage, io: IoOutcome)
    requires SharedStreams(s.control, s.net) && TaskStreams(s.control, s.net, Reconnect(caller, gen, stage))
    ensures StreamsAfter(s, t, ReconnectDecision(s, caller, gen, stage, io))
  {
    if Early(stage) {
      StreamsEarly(s, t, caller, gen, stage, io);
    } else if stage.TakeSnapshot? || stage.Replay? {
      StreamsReplay(s, t, caller, gen, stage, io);
    } else {
      StreamsLate(s, t, caller, gen, stage, io);
    }
  }

  /** Everything but a reconnect step: it installs nothing and prepares no session. */
  lemma StreamsElsewhere(s: State, t: TaskId, task: Task, e: Event)
    requires SharedStreams(s.control, s.net) && TaskStreams(s.control, s.net, task.pc)
    requires !(e.Step? && task.pc.Reconnect?)
    ensures StreamsAfter(s, t, Decide(s, task, e))
  {
    var d := Decide(s, task, e);
    PlainDecision(s, task, e);
    WiresGrow(s.control, s.net, d.net);
    assert DoControl(s.control, d.control, t).installs == s.control.installs;
  }

  lemma PlainDecision(s: State, task: Task, e: Event)
    requires !(e.Step? && task.pc.Reconnect?)
    ensures var d := Decide(s, task, e);
      && !d.control.InstallSession?
      && (d.pc == task.pc || !d.pc.Reconnect? || d.pc.stage.CheckOpen?)
      && (d.pc.SendWrite? ==> d.pc == task.pc || s.control.session == Some(d.pc.sid))
      && (d.pc.Reconnect? && d.pc == task.pc ==> d.net.KeepNet?)
  {
  }

  lemma StreamsMove(s: State, t: TaskId, task: Task, e: Event)
    requires SharedStreams(s.control, s.net) && TaskStreams(s.control, s.net, task.pc)
    ensures StreamsAfter(s, t, Decide(s, task, e))
  {
    if e.Step? && task.pc.Reconnect? {
      StreamsReconnect(s, t, task.pc.caller, task.pc.gen, task.pc.stage, e.io);
    } else {
      StreamsElsewhere(s, t, task, e);
    }
  }

  function NetTarget(op: NetOp): Option<SessionId> {
    if op.WriteFrame? || op.FlushStream? || op.BreakStream? then Some(op.sid) else None
  }

  /** A task without the reconnect lock reaches only published sessions and installs nothing. */
  lemma UnlockedReach(s: State, task: Task, e: Event)
    requires TaskStreams(s.control, s.net, task.pc) && !HoldsReconnectLock(task.pc)
    ensures var d := Decide(s, task, e);
      && !d.control.InstallSession?
      && (NetTarget(d.net).Some? ==> Published(s.control, NetTarget(d.net).value))
  {
  }

  lemma PreparingKept(c: Control, n: Net, control: ControlOp, net: NetOp, t: TaskId, other: Pc)
    requires SharedStreams(c, n) && TaskStreams(c, n, other) && !control.InstallSession?
    requires NetTarget(net).Some? ==> Published(c, NetTarget(net).value)
    ensures TaskStreams(DoControl(c, control, t), DoNet(n, net), other)
  {
    assert DoControl(c, control, t).installs == c.installs;
    assert forall sid :: sid in n.streams && !Published(c, sid) ==>
      sid in DoNet(n, net).streams && DoNet(n, net).streams[sid] == n.streams[sid];
  }

  /** No step of one task touches the replacement another is preparing. */
  lemma StreamsOther(s: State, t: TaskId, task: Task, e: Event, u: TaskId, other: Pc)
    requires SharedStreams(s.control, s.net) && TaskStreams(s.control, s.net, task.pc)
    requires TaskLocks(s.control, t, task.pc) && TaskLocks(s.control, u, other)
    requires u != t && TaskStreams(s.control, s.net, other)
    ensures var d := Decide(s, task, e);
      TaskStreams(DoControl(s.control, d.control, t), DoNet(s.net, d.net), other)
  {
    var d := Decide(s, task, e);
    if HoldsReconnectLock(task.pc) {
      if d.control.InstallSession? {
        PublishedGrows(s.control, d.control.replacement);
      }
    } else {
      UnlockedReach(s, task, e);
      PreparingKept(s.control, s.net, d.control, d.net, t, other);
    }
  }

  lemma PublishedGrows(c: Control, r: Replacement)
    ensures var c' := c.(installs := c.installs + [r]);
      forall sid :: Published(c', sid) <==> Published(c, sid) || sid == r.sid
  {
  }

  lemma StreamsBackground(c: Control, n: Net, sid: SessionId, fails: bool, accepted: nat, pc: Pc)
    requires SharedStreams(c, n) && TaskStreams(c, n, pc)
    ensures TaskStreams(c, DoNet(n, BackgroundOp(sid, fails, accepted)), pc)
  {
  }

  // ------------------------------------------------------------ retry ids

  /** The sender has queued its datagram and has not given it up. */
  predicate Committed(pc: Pc) {
    || pc.SendLoad? || pc.SendCheck? || pc.SendClone? || pc.SendWrite? || pc.SendRetry?
    || pc.SendFinal? || pc.SendDrop? || pc.Sent? || (pc.Reconnect? && pc.caller.BySend?)
  }

  ghost predicate Unique(frames: seq<Pending>) {
    forall i, j :: 0 <= i < j < |frames| ==> frames[i].id != frames[j].id
  }

  ghost predicate SharedIds(q: Queue) {
    && Unique(q.retry)
    && (forall id :: id in q.owners ==> id < q.nextRetryId)
    && Ids(q.retry) <= q.owners.Keys
    && q.removed.Keys <= q.owners.Keys
    && Ids(q.retry) !! q.removed.Keys
  }

  ghost predicate TaskIds(q: Queue, t: TaskId, task: Task) {
    && (task.id.Some? ==> task.id.value in q.owners && q.owners[task.id.value] == t)
    && (task.pc.SendStart? ==> task.id.None?)
    && (task.pc.SendPush? ==>
          && task.id == Some(task.pc.id)
          && task.pc.id !in Ids(q.retry) && task.pc.id !in q.removed)
    && (Committed(task.pc) ==>
          && task.id.Some?
          && (task.id.value in Ids(q.retry) || (task.id.value in q.removed && q.removed[task.id.value] != Dropped)))
    && (task.id.Some? ==>
          forall p :: p in q.retry && p.id == task.id.value ==> Frame(p.target, p.payload) == task.frame)
  }

  lemma RemoveAtIds(frames: seq<Pending>, i: nat)
    requires Unique(frames) && i < |frames|
    ensures Unique(RemoveAt(frames, i))
    ensures Ids(RemoveAt(frames, i)) == Ids(frames) - {frames[i].id}
    ensures forall p :: p in RemoveAt(frames, i) ==> p in frames
  {
    var r := RemoveAt(frames, i);
    forall p | p in frames && p.id != frames[i].id
      ensures p in r
    {
      var j :| 0 <= j < |frames| && frames[j] == p;
      assert r[if j < i then j else j - 1] == p;
    }
  }

  /** Removing by id, from a queue of distinct ids, removes exactly that id. */
  lemma RemoveIdIds(frames: seq<Pending>, id: nat)
    requires Unique(frames) && id in Ids(frames)
    ensures Unique(RemoveId(frames, id))
    ensures Ids(RemoveId(frames, id)) == Ids(frames) - {id}
    ensures forall p :: p in RemoveId(frames, id) ==> p in frames
  {
    var i := FirstWhere(frames, (f: Pending) => f.id == id);
    RemoveAtIds(frames, i);
  }

  function ReasonOf(op: QueueOp): Reason {
    match op
    case DropRetry(_) => Dropped
    case ClearRetry => Cleared
    case _ => Acked
  }

  /** What a queue step may change, for any id: it leaves only with a recorded reason. */
  ghost predicate QueueStep(q: Queue, q': Queue, op: QueueOp) {
    && q.owners.Keys <= q'.owners.Keys
    && (forall id :: id in q.owners ==> q'.owners[id] == q.owners[id])
    && (forall id :: id in q.removed ==> id in q'.removed && q'.removed[id] == q.removed[id])
    && (forall id :: id in Ids(q.retry) && id !in Ids(q'.retry) ==>
          id in q'.removed && q'.removed[id] == ReasonOf(op))
    && (forall id :: id in q'.removed && id !in q.removed ==> id in Ids(q.retry) && id !in Ids(q'.retry))
    && (op.DropRetry? ==> forall id :: id in Ids(q.retry) && id != op.id ==> id in Ids(q'.retry))
    && (forall p :: p in q'.retry ==> p in q.retry || (op.Push? && p == op.entry))
  }

  lemma PushSteps(q: Queue, entry: Pending, t: TaskId)
    requires SharedIds(q) && entry.id in q.owners && entry.id !in Ids(q.retry) && entry.id !in q.removed
    ensures var q' := DoQueue(q, Push(entry), t); SharedIds(q') && QueueStep(q, q', Push(entry))
  {
    assert Ids(q.retry + [entry]) == Ids(q.retry) + {entry.id};
  }

  lemma DropSteps(q: Queue, id: nat, t: TaskId)
    requires SharedIds(q)
    ensures var q' := DoQueue(q, DropRetry(id), t); SharedIds(q') && QueueStep(q, q', DropRetry(id))
  {
    if id in Ids(q.retry) {
      RemoveIdIds(q.retry, id);
    }
  }

  lemma AcknowledgeSteps(q: Queue, source: Endpoint, payload: seq<Byte>, t: TaskId)
    requires SharedIds(q)
    ensures var op := AcknowledgeReply(source, payload);
      SharedIds(DoQueue(q, op, t)) && QueueStep(q, DoQueue(q, op, t), op)
  {
    var i := AckIndex(q.retry, source, payload);
    if i < |q.retry| {
      RemoveAtIds(q.retry, i);
      assert q.retry[i] in q.retry;
    }
  }

  lemma QueueSteps(q: Queue, op: QueueOp, t: TaskId)
    requires SharedIds(q)
    requires op.Push? ==> op.entry.id in q.owners && op.entry.id !in Ids(q.retry) && op.entry.id !in q.removed
    ensures SharedIds(DoQueue(q, op, t)) && QueueStep(q, DoQueue(q, op, t), op)
  {
    match op {
      case Push(entry) => PushSteps(q, entry, t);
      case DropRetry(id) => DropSteps(q, id, t);
      case AcknowledgeReply(source, payload) => AcknowledgeSteps(q, source, payload, t);
      case _ =>
    }
  }

  /** The queue op of any decision fits its task: it pushes or drops only the task's own id. */
  lemma QueueOps(s: State, task: Task, e: Event)
    ensures var d := Decide(s, task, e);
      && (d.queue.AllocateId? ==> task.pc.SendStart? && d.pc == SendPush(s.queue.nextRetryId))
      && (d.queue.Push? ==>
            task.pc.SendPush? && d.pc.SendLoad? &&
            d.queue.entry == Pending(task.pc.id, task.frame.target, task.frame.payload))
      && (d.queue.DropRetry? ==> task.pc.SendDrop? && task.id == Some(d.queue.id) && d.pc.Finished?)
      && (d.queue.ClearRetry? <==> e.Step? && task.pc.CloseClear?)
      && (d.queue.AcknowledgeReply? ==> e.Step? && task.pc.RecvAck?)
  {
  }

  /** Where the decision leaves the task, as far as its id is concerned. */
  lemma IdPhases(s: State, task: Task, e: Event)
    ensures var d := Decide(s, task, e);
      && (Committed(d.pc) ==> Committed(task.pc) || d.queue.Push?)
      && (d.pc.SendPush? ==> d.pc == task.pc || d.queue.AllocateId?)
      && (d.pc.SendStart? ==> task.pc.SendStart? && !d.queue.AllocateId?)
  {
  }

  lemma IdsMove(s: State, t: TaskId, task: Task, e: Event)
    requires SharedIds(s.queue) && TaskIds(s.queue, t, task)
    ensures var d := Decide(s, task, e); var q' := DoQueue(s.queue, d.queue, t);
      && SharedIds(q') && QueueStep(s.queue, q', d.queue)
      && TaskIds(q', t, After(task, s.queue, d))
  {
    var d := Decide(s, task, e);
    QueueOps(s, task, e);
    IdPhases(s, task, e);
    QueueSteps(s.queue, d.queue, t);
    OwnIdStep(s.queue, t, task, d);
  }

  lemma OwnIdStep(q: Queue, t: TaskId, task: Task, d: Decision)
    requires SharedIds(q) && TaskIds(q, t, task)
    requires d.queue.AllocateId? ==> task.pc.SendStart? && d.pc == SendPush(q.nextRetryId)
    requires d.queue.Push? ==>
      task.pc.SendPush? && d.pc.SendLoad? &&
      d.queue.entry == Pending(task.pc.id, task.frame.target, task.frame.payload)
    requires d.queue.DropRetry? ==> d.pc.Finished?
    requires d.pc.SendStart? ==> task.pc.SendStart? && !d.queue.AllocateId?
    requires Committed(d.pc) ==> Committed(task.pc) || d.queue.Push?
    requires d.pc.SendPush? ==> d.pc == task.pc || d.queue.AllocateId?
    requires QueueStep(q, DoQueue(q, d.queue, t), d.queue) && SharedIds(DoQueue(q, d.queue, t))
    ensures TaskIds(DoQueue(q, d.queue, t), t, After(task, q, d))
  {
    var q' := DoQueue(q, d.queue, t);
    if d.queue.Push? {
      assert d.queue.entry in q'.retry;
    } else if d.queue.AllocateId? {
      assert q.nextRetryId !in q.owners;
      assert forall p :: p in q.retry ==> p.id in Ids(q.retry);
    }
  }

  /** Another task's step never queues, drops or relabels this task's datagram. */
  lemma IdsOther(s: State, t: TaskId, task: Task, e: Event, u: TaskId, other: Task)
    requires SharedIds(s.queue) && TaskIds(s.queue, t, task)
    requires u != t && TaskIds(s.queue, u, other)
    ensures TaskIds(DoQueue(s.queue, Decide(s, task, e).queue, t), u, other)
  {
    var op := Decide(s, task, e).queue;
    QueueOps(s, task, e);
    QueueSteps(s.queue, op, t);
    OtherIdStep(s.queue, op, t, task, u, other);
  }

  lemma OtherIdStep(q: Queue, op: QueueOp, t: TaskId, task: Task, u: TaskId, other: Task)
    requires SharedIds(q) && TaskIds(q, t, task)
    requires u != t && TaskIds(q, u, other)
    requires op.Push? ==> task.pc.SendPush? && op.entry.id == task.pc.id
    requires op.DropRetry? ==> task.id == Some(op.id)
    requires QueueStep(q, DoQueue(q, op, t), op) && SharedIds(DoQueue(q, op, t))
    ensures TaskIds(DoQueue(q, op, t), u, other)
  {
    var q' := DoQueue(q, op, t);
    assert forall id :: id in Ids(q'.retry) ==> id in Ids(q.retry) || (op.Push? && id == op.entry.id);
  }

  // ---------------------------------------------------------------- close

  /** A sender that queued its datagram after the queue was cleared can only end by dropping it. */
  predicate Doomed(pc: Pc) {
    || pc.SendLoad? || pc.SendCheck? || pc.SendDrop? || pc.Cancelled?
    || (pc.SendRetry? && pc.attempts == 0)
    || (pc.Reconnect? && pc.caller.BySend? && pc.stage.CheckOpen?)
  }

  ghost predicate SharedClose(c: Control, q: Queue) {
    && (c.signalled ==> c.closed)
    && (c.taken ==> c.closed && c.session.None?)
    && (q.cleared ==> c.taken)
  }

  ghost predicate TaskClose(c: Control, q: Queue, task: Task) {
    && (task.pc.CloseSignal? || task.pc.CloseTake? ==> c.closed)
    && (task.pc.CloseShutdown? || task.pc.CloseClear? ==> c.taken)
    && (c.taken ==> !Uninterruptible(task.pc))
    && (q.cleared && task.id.Some? && task.id.value in Ids(q.retry) ==> Doomed(task.pc))
  }

  lemma CloseControl(s: State, t: TaskId, task: Task, e: Event)
    requires SharedClose(s.control, s.queue) && TaskClose(s.control, s.queue, task)
    ensures var d := Decide(s, task, e); var c' := DoControl(s.control, d.control, t);
      && (c'.signalled ==> c'.closed)
      && (c'.taken ==> c'.closed && c'.session.None?)
      && (d.queue.ClearRetry? ==> c'.taken)
  {
  }

  lemma ClosePhases(s: State, t: TaskId, task: Task, e: Event)
    requires SharedClose(s.control, s.queue) && TaskClose(s.control, s.queue, task)
    ensures var d := Decide(s, task, e); var c' := DoControl(s.control, d.control, t);
      && (d.pc.CloseSignal? || d.pc.CloseTake? ==> c'.closed)
      && (d.pc.CloseShutdown? || d.pc.CloseClear? ==> c'.taken)
      && (c'.taken ==> !Uninterruptible(d.pc))
  {
  }

  lemma DoomedStays(s: State, task: Task, e: Event)
    requires s.control.closed
    ensures var d := Decide(s, task, e);
      && (Doomed(task.pc) ==> Doomed(d.pc) || (d.queue.DropRetry? || task.id.None?))
      && (d.queue.Push? ==> Doomed(d.pc))
  {
  }

  lemma CloseMove(s: State, t: TaskId, task: Task, e: Event)
    requires SharedIds(s.queue) && TaskIds(s.queue, t, task) && TaskLocks(s.control, t, task.pc)
    requires SharedClose(s.control, s.queue) && TaskClose(s.control, s.queue, task)
    ensures var d := Decide(s, task, e);
      && SharedClose(DoControl(s.control, d.control, t), DoQueue(s.queue, d.queue, t))
      && TaskClose(DoControl(s.control, d.control, t), DoQueue(s.queue, d.queue, t), After(task, s.queue, d))
  {
    var d := Decide(s, task, e);
    var q' := DoQueue(s.queue, d.queue, t);
    CloseControl(s, t, task, e);
    ClosePhases(s, t, task, e);
    TakeNeedsLock(s, t, task, e);
    IdsMove(s, t, task, e);
    QueueOps(s, task, e);
    if s.queue.cleared {
      DoomedStays(s, task, e);
    }
    assert q'.cleared ==> s.queue.cleared || d.queue.ClearRetry?;
  }

  lemma CloseOther(s: State, t: TaskId, task: Task, e: Event, u: TaskId, other: Task)
    requires SharedIds(s.queue) && TaskIds(s.queue, t, task) && TaskIds(s.queue, u, other)
    requires TaskLocks(s.control, t, task.pc) && TaskLocks(s.control, u, other.pc)
    requires SharedClose(s.control, s.queue) && TaskClose(s.control, s.queue, task)
    requires u != t && TaskClose(s.control, s.queue, other)
    ensures var d := Decide(s, task, e);
      TaskClose(DoControl(s.control, d.control, t), DoQueue(s.queue, d.queue, t), other)
  {
    var d := Decide(s, task, e);
    QueueOps(s, task, e);
    QueueSteps(s.queue, d.queue, t);
    TakeNeedsLock(s, t, task, e);
    var q, q' := s.queue, DoQueue(s.queue, d.queue, t);
    assert forall id :: id in Ids(q'.retry) ==> id in Ids(q.retry) || (d.queue.Push? && id == d.queue.entry.id);
    assert q'.cleared ==> q.cleared || q'.retry == [];
  }

  lemma TakeNeedsLock(s: State, t: TaskId, task: Task, e: Event)
    ensures var d := Decide(s, task, e); var c' := DoControl(s.control, d.control, t);
      && (c'.taken ==> s.control.taken || s.control.sessionLock.None?)
      && (s.control.closed ==> c'.closed) && (s.control.taken ==> c'.taken)
  {
  }

  // ------------------------------------------------------------ invariant

  ghost predicate SharedInv(c: Control, q: Queue, n: Net) {
    SharedLocks(c) && SharedStreams(c, n) && SharedIds(q) && SharedClose(c, q)
  }

  ghost predicate TaskInv(c: Control, q: Queue, n: Net, t: TaskId, task: Task) {
    TaskLocks(c, t, task.pc) && TaskStreams(c, n, task.pc) && TaskIds(q, t, task) && TaskClose(c, q, task)
  }

  /** Every id ever allocated belongs to a task that still knows it. */
  ghost predicate OwnersKnown(owners: map<nat, TaskId>, tasks: map<TaskId, Task>) {
    forall id :: id in owners ==> owners[id] in tasks && tasks[owners[id]].id == Some(id)
  }

  ghost predicate LocksHeld(c: Control, tasks: map<TaskId, Task>) {
    && (c.reconnectLock.Some? ==> c.reconnectLock.value in tasks)
    && (c.sessionLock.Some? ==> c.sessionLock.value in tasks)
  }

  ghost predicate Inv(s: State) {
    && SharedInv(s.control, s.queue, s.net)
    && (forall t :: t in s.tasks ==> TaskInv(s.control, s.queue, s.net, t, s.tasks[t]))
    && OwnersKnown(s.queue.owners, s.tasks)
    && LocksHeld(s.control, s.tasks)
  }

  lemma InvInit()
    ensures Inv(Init())
  {
  }

  lemma OwnersMove(q: Queue, op: QueueOp, t: TaskId, tasks: map<TaskId, Task>, task: Task)
    requires OwnersKnown(q.owners, tasks) && t in tasks
    requires if op.AllocateId? then tasks[t].id.None? && task.id == Some(q.nextRetryId) else task.id == tasks[t].id
    ensures OwnersKnown(DoQueue(q, op, t).owners, tasks[t := task])
  {
    assert DoQueue(q, op, t).owners == if op.AllocateId? then q.owners[q.nextRetryId := t] else q.owners;
  }

  lemma LocksHeldMove(c: Control, op: ControlOp, t: TaskId, tasks: map<TaskId, Task>, task: Task)
    requires LocksHeld(c, tasks)
    ensures LocksHeld(DoControl(c, op, t), tasks[t := task])
  {
  }

  lemma InvMover(s: State, t: TaskId, task: Task, e: Event, d: Decision)
    requires SharedInv(s.control, s.queue, s.net) && TaskInv(s.control, s.queue, s.net, t, task)
    requires d == Decide(s, task, e)
    ensures SharedInv(DoControl(s.control, d.control, t), DoQueue(s.queue, d.queue, t), DoNet(s.net, d.net))
    ensures TaskInv(DoControl(s.control, d.control, t), DoQueue(s.queue, d.queue, t), DoNet(s.net, d.net),
                    t, After(task, s.queue, d))
  {
    LocksMove(s, t, task, e);
    StreamsMove(s, t, task, e);
    IdsMove(s, t, task, e);
    CloseMove(s, t, task, e);
  }

  lemma InvOther(s: State, t: TaskId, task: Task, e: Event, d: Decision, u: TaskId, other: Task)
    requires SharedInv(s.control, s.queue, s.net) && TaskInv(s.control, s.queue, s.net, t, task)
    requires u != t && TaskInv(s.control, s.queue, s.net, u, other)
    requires d == Decide(s, task, e)
    ensures TaskInv(DoControl(s.control, d.control, t), DoQueue(s.queue, d.queue, t), DoNet(s.net, d.net), u, other)
  {
    LocksOther(s, t, task, e, u, other.pc);
    StreamsOther(s, t, task, e, u, other.pc);
    IdsOther(s, t, task, e, u, other);
    CloseOther(s, t, task, e, u, other);
  }

  lemma InvMove(s: State, t: TaskId, e: Event, d: Decision)
    requires Inv(s) && t in s.tasks && d == Decide(s, s.tasks[t], e)
    ensures Inv(Perform(s, t, s.tasks[t], d))
  {
    var task := s.tasks[t];
    var s' := Perform(s, t, task, d);
    InvMover(s, t, task, e, d);
    QueueOps(s, task, e);
    OwnersMove(s.queue, d.queue, t, s.tasks, After(task, s.queue, d));
    LocksHeldMove(s.control, d.control, t, s.tasks, After(task, s.queue, d));
    forall u | u in s'.tasks
      ensures TaskInv(s'.control, s'.queue, s'.net, u, s'.tasks[u])
    {
      if u != t {
        InvOther(s, t, task, e, d, u, s.tasks[u]);
      }
    }
  }

  lemma InvBackground(s: State, sid: SessionId, fails: bool, accepted: nat)
    requires Inv(s)
    ensures Inv(Apply(s, Background(sid, fails, accepted)))
  {
    WiresGrow(s.control, s.net, BackgroundOp(sid, fails, accepted));
    forall t | t in s.tasks
      ensures TaskStreams(s.control, Apply(s, Background(sid, fails, accepted)).net, s.tasks[t].pc)
    {
      StreamsBackground(s.control, s.net, sid, fails, accepted, s.tasks[t].pc);
    }
  }

  lemma InvStart(s: State, t: TaskId, task: Task)
    requires Inv(s) && t !in s.tasks && task.id.None?
    requires task.pc in {SendStart, RecvLoad(0), CloseStore}
    ensures Inv(s.(tasks := s.tasks[t := task]))
  {
  }

  lemma InvStep(s: State, e: Event)
    requires Inv(s)
    ensures Inv(Apply(s, e))
  {
    if e.Background? {
      InvBackground(s, e.sid, e.fails, e.accepted);
    } else if e.StartSend? || e.StartRecv? || e.StartClose? {
      if e.t !in s.tasks {
        InvStart(s, e.t, Fresh(e));
      }
    } else if e.t in s.tasks {
      InvMove(s, e.t, e, Decide(s, s.tasks[e.t], e));
    }
  }

  lemma {:induction false} InvRun(s: State, events: seq<Event>)
    requires Inv(s)
    ensures Inv(Run(s, events))
  {
    if events != [] {
      InvRun(s, events[..|events| - 1]);
      InvStep(Run(s, events[..|events| - 1]), events[|events| - 1]);
    }
  }

  // ------------------------------------------------------------- theorems

  /**
   * After a close has taken the session, no run of any tasks, wherever their
   * reconnects were, makes it non-empty again.
   */
  lemma {:induction false} TakenSessionStaysEmpty(before: seq<Event>, after: seq<Event>)
    requires Run(Init(), before).control.taken
    ensures Run(Run(Init(), before), after).control.session.None?
    ensures Run(Run(Init(), before), after).control.taken
    decreases |after|
  {
    InvInit();
    InvRun(Init(), before);
    if after != [] {
      var s := Run(Run(Init(), before), after[..|after| - 1]);
      var e := after[|after| - 1];
      TakenSessionStaysEmpty(before, after[..|after| - 1]);
      InvRun(Run(Init(), before), after[..|after| - 1]);
      InvStep(s, e);
      if !e.Background? && e.t in s.tasks {
        TakeNeedsLock(s, e.t, s.tasks[e.t], e);
      }
    }
  }

  predicate Ended(pc: Pc) {
    pc.Sent? || pc.Finished? || pc.Cancelled?
  }

  /**
   * Once some close has cleared the queue and every send has returned or was
   * cancelled, only cancelled sends can have a datagram left in the queue.
   */
  lemma ClosedQueueDrains(events: seq<Event>)
    ensures var s := Run(Init(), events);
      && s.queue.cleared
      && (forall t :: t in s.tasks && s.tasks[t].id.Some? ==> Ended(s.tasks[t].pc))
      ==> forall p :: p in s.queue.retry ==>
            && p.id in s.queue.owners && s.queue.owners[p.id] in s.tasks
            && s.tasks[s.queue.owners[p.id]].pc.Cancelled?
  {
    InvInit();
    InvRun(Init(), events);
    var s := Run(Init(), events);
    if s.queue.cleared {
      forall p | p in s.queue.retry
        ensures p.id in s.queue.owners && s.queue.owners[p.id] in s.tasks && Doomed(s.tasks[s.queue.owners[p.id]].pc)
      {
        assert p.id in Ids(s.queue.retry);
        var t := s.queue.owners[p.id];
        assert TaskInv(s.control, s.queue, s.net, t, s.tasks[t]);
      }
    }
  }

  /** So with no cancelled send the queue is empty. */
  lemma UncancelledQueueIsEmpty(events: seq<Event>)
    ensures var s := Run(Init(), events);
      && s.queue.cleared
      && (forall t :: t in s.tasks && s.tasks[t].id.Some? ==> s.tasks[t].pc.Sent? || s.tasks[t].pc.Finished?)
      ==> s.queue.retry == []
  {
    ClosedQueueDrains(events);
    var s := Run(Init(), events);
    if s.queue.retry != [] {
      assert s.queue.retry[0] in s.queue.retry;
      InvInit();
      InvRun(Init(), events);
      var t := s.queue.owners[s.queue.retry[0].id];
      assert s.queue.retry[0].id in Ids(s.queue.retry);
      assert TaskInv(s.control, s.queue, s.net, t, s.tasks[t]);
    }
  }

  // ------------------------------------- exactly when a datagram is left

  /** The reply or the clear that took an id out of the queue, if one did. */
  predicate AckedOrCleared(q: Queue, id: nat) {
    id in q.removed && q.removed[id] != Dropped
  }

  /** An id that has been queued is queued still or was removed, and only its own finished send drops it. */
  ghost predicate Accounted(s: State, t: TaskId, id: nat) {
    && t in s.tasks && s.tasks[t].id == Some(id)
    && (id in Ids(s.queue.retry) || id in s.queue.removed)
    && (id in s.queue.removed && s.queue.removed[id] == Dropped ==> s.tasks[t].pc.Finished?)
  }

  lemma FinishedStays(s: State, task: Task, e: Event)
    requires task.pc.Finished?
    ensures Decide(s, task, e).pc == task.pc
  {
  }

  /** Only a send's own step drops its datagram, and that step finishes the send. */
  lemma DropIsOwn(s: State, u: TaskId, e: Event, t: TaskId, id: nat)
    requires Inv(s) && u in s.tasks && t in s.tasks && s.tasks[t].id == Some(id)
    ensures var d := Decide(s, s.tasks[u], e); d.queue == DropRetry(id) ==> u == t && d.pc.Finished?
  {
    QueueOps(s, s.tasks[u], e);
    assert TaskInv(s.control, s.queue, s.net, u, s.tasks[u]) && TaskInv(s.control, s.queue, s.net, t, s.tasks[t]);
  }

  lemma QueueMove(s: State, u: TaskId, e: Event)
    requires Inv(s) && u in s.tasks
    ensures var d := Decide(s, s.tasks[u], e); QueueStep(s.queue, DoQueue(s.queue, d.queue, u), d.queue)
  {
    assert TaskInv(s.control, s.queue, s.net, u, s.tasks[u]);
    IdsMove(s, u, s.tasks[u], e);
  }

  lemma AccountedMove(s: State, u: TaskId, e: Event, d: Decision, t: TaskId, id: nat)
    requires Inv(s) && Accounted(s, t, id) && u in s.tasks && d == Decide(s, s.tasks[u], e)
    ensures Accounted(Perform(s, u, s.tasks[u], d), t, id)
  {
    DropIsOwn(s, u, e, t, id);
    QueueMove(s, u, e);
    QueueOps(s, s.tasks[u], e);
    assert TaskInv(s.control, s.queue, s.net, u, s.tasks[u]);
    if s.tasks[u].pc.Finished? {
      FinishedStays(s, s.tasks[u], e);
    }
    AccountedStep(s.queue, DoQueue(s.queue, d.queue, u), d.queue, id);
  }

  /** An id that a step takes out is recorded, as dropped only if the step dropped this id. */
  lemma AccountedStep(q: Queue, q': Queue, op: QueueOp, id: nat)
    requires QueueStep(q, q', op) && (id in Ids(q.retry) || id in q.removed)
    ensures id in Ids(q'.retry) || id in q'.removed
    ensures id in q'.removed && q'.removed[id] == Dropped && id !in q.removed ==> op == DropRetry(id)
    ensures id in q.removed ==> q'.removed[id] == q.removed[id]
  {
  }

  lemma AccountedApply(s: State, e: Event, t: TaskId, id: nat)
    requires Inv(s) && Accounted(s, t, id)
    ensures Accounted(Apply(s, e), t, id)
  {
    if !e.Background? && !e.StartSend? && !e.StartRecv? && !e.StartClose? && e.t in s.tasks {
      AccountedMove(s, e.t, e, Decide(s, s.tasks[e.t], e), t, id);
    }
  }

  lemma {:induction false} AccountedRun(s: State, events: seq<Event>, t: TaskId, id: nat)
    requires Inv(s) && Accounted(s, t, id)
    ensures Accounted(Run(s, events), t, id)
  {
    if events != [] {
      AccountedRun(s, events[..|events| - 1], t, id);
      InvRun(s, events[..|events| - 1]);
      AccountedApply(Run(s, events[..|events| - 1]), events[|events| - 1], t, id);
    }
  }

  /** In a cleared queue, an ended send has its datagram left only if it was cancelled. */
  lemma EndedAndQueuedIsCancelled(s: State, t: TaskId, id: nat)
    requires Inv(s) && s.queue.cleared && t in s.tasks && s.tasks[t].id == Some(id) && Ended(s.tasks[t].pc)
    ensures id in Ids(s.queue.retry) ==> s.tasks[t].pc.Cancelled?
  {
    assert TaskInv(s.control, s.queue, s.net, t, s.tasks[t]);
  }

  /**
   * Take any run that queues the datagram of `t` and any continuation to a
   * cleared queue in which `t` has ended. Unless a reply or a clear took it,
   * the datagram is left if and only if the send was cancelled.
   */
  lemma LeftExactlyWhenCancelled(before: seq<Event>, after: seq<Event>, t: TaskId)
    requires var s := Run(Init(), before);
      t in s.tasks && s.tasks[t].id.Some? && s.tasks[t].id.value in Ids(s.queue.retry)
    ensures var s := Run(Init(), before); var s' := Run(s, after); var id := s.tasks[t].id.value;
      && t in s'.tasks
      && (s'.queue.cleared && Ended(s'.tasks[t].pc) && !AckedOrCleared(s'.queue, id) ==>
            (id in Ids(s'.queue.retry) <==> s'.tasks[t].pc.Cancelled?))
  {
    var s := Run(Init(), before);
    var id := s.tasks[t].id.value;
    InvInit();
    InvRun(Init(), before);
    AccountedRun(s, after, t, id);
    InvRun(s, after);
    var s' := Run(s, after);
    if s'.queue.cleared && Ended(s'.tasks[t].pc) {
      EndedAndQueuedIsCancelled(s', t, id);
    }
  }

  lemma {:induction false} RunConcat(s: State, a: seq<Event>, b: seq<Event>)
    ensures Run(s, a + b) == Run(Run(s, a), b)
  {
    if b == [] {
      assert a + b == a;
    } else {
      RunConcat(s, a, b[..|b| - 1]);
      assert (a + b)[..|a + b| - 1] == a + b[..|b| - 1];
    }
  }

  predicate QueuedAfter(events: seq<Event>, before: seq<Event>, after: seq<Event>, id: nat) {
    events == before + after && id in Ids(Run(Init(), before).queue.retry)
  }

  /** The datagram was in the queue at some moment of the run. */
  ghost predicate WasQueued(events: seq<Event>, id: nat) {
    exists before, after :: QueuedAfter(events, before, after, id)
  }

  /** A send that queued its datagram and was then cancelled, with no reply and no clear since. */
  ghost predicate LeftBehind(events: seq<Event>, t: TaskId) {
    var s := Run(Init(), events);
    && t in s.tasks && s.tasks[t].id.Some? && s.tasks[t].pc.Cancelled?
    && WasQueued(events, s.tasks[t].id.value) && !AckedOrCleared(s.queue, s.tasks[t].id.value)
  }

  lemma QueuedHasOwner(s: State, id: nat)
    requires Inv(s) && id in Ids(s.queue.retry)
    ensures id in s.queue.owners && Accounted(s, s.queue.owners[id], id)
  {
  }

  lemma AccountedSince(before: seq<Event>, after: seq<Event>, id: nat)
    requires id in Ids(Run(Init(), before).queue.retry)
    ensures exists owner :: Accounted(Run(Init(), before + after), owner, id)
  {
    var s := Run(Init(), before);
    InvInit();
    InvRun(Init(), before);
    QueuedHasOwner(s, id);
    AccountedRun(s, after, s.queue.owners[id], id);
    RunConcat(Init(), before, after);
  }

  lemma QueuedIsAccounted(events: seq<Event>, id: nat)
    requires WasQueued(events, id)
    ensures exists owner :: Accounted(Run(Init(), events), owner, id)
  {
    var before, after :| QueuedAfter(events, before, after, id);
    AccountedSince(before, after, id);
  }

  /** An id belongs to one task. */
  lemma IdIsUnique(s: State, t: TaskId, u: TaskId)
    requires Inv(s) && t in s.tasks && u in s.tasks && s.tasks[t].id.Some? && s.tasks[t].id == s.tasks[u].id
    ensures t == u
  {
    assert TaskInv(s.control, s.queue, s.net, t, s.tasks[t]) && TaskInv(s.control, s.queue, s.net, u, s.tasks[u]);
  }

  lemma LeftBehindIsQueued(events: seq<Event>, t: TaskId)
    requires LeftBehind(events, t)
    ensures var s := Run(Init(), events); s.tasks[t].id.value in Ids(s.queue.retry)
  {
    var s := Run(Init(), events);
    var id := s.tasks[t].id.value;
    QueuedIsAccounted(events, id);
    var owner :| Accounted(s, owner, id);
    InvInit();
    InvRun(Init(), events);
    IdIsUnique(s, t, owner);
  }

  /**
   * Once a close has cleared the queue and every send has ended, the queue is
   * empty if and only if no send was cancelled while it had a datagram
   * queued that neither a reply nor a clear took.
   */
  lemma ClosedQueueIsEmptyExactly(events: seq<Event>)
    requires var s := Run(Init(), events);
      s.queue.cleared && forall t :: t in s.tasks && s.tasks[t].id.Some? ==> Ended(s.tasks[t].pc)
    ensures Run(Init(), events).queue.retry == [] <==> forall t :: !LeftBehind(events, t)
  {
    var s := Run(Init(), events);
    if s.queue.retry == [] {
      forall t ensures !LeftBehind(events, t) {
        if LeftBehind(events, t) {
          LeftBehindIsQueued(events, t);
        }
      }
    } else {
      ClosedQueueDrains(events);
      InvInit();
      InvRun(Init(), events);
      var p := s.queue.retry[0];
      var t := s.queue.owners[p.id];
      assert p in s.queue.retry && p.id in Ids(s.queue.retry);
      assert events == events + [];
      assert QueuedAfter(events, events, [], p.id);
      assert LeftBehind(events, t);
    }
  }

  lemma RunStep(events: seq<Event>, e: Event)
    ensures Run(Init(), events + [e]) == Apply(Run(Init(), events), e)
  {
    assert (events + [e])[..|events|] == events;
  }

  function NextClose(pc: Pc): Pc {
    match pc
    case CloseStore => CloseSignal
    case CloseSignal => CloseTake
    case CloseTake => CloseShutdown
    case CloseShutdown => CloseClear(Ok(()))
    case _ => Finished(Ok(()))
  }

  /** A lone closer with nothing queued. */
  predicate Closing(s: State, pc: Pc, cleared: bool) {
    && s.tasks == map[0 := Task(NO_FRAME, None, pc)] && s.control.sessionLock.None?
    && (pc.CloseStore? || pc.CloseSignal? || pc.CloseTake? ==> s.control.session.Some?)
    && (pc.CloseClear? ==> pc.result == Ok(()))
    && s.queue == Queue(1, [], map[], map[], cleared)
  }

  lemma CloseStep(s: State, pc: Pc)
    requires Closing(s, pc, false) && IsClose(pc)
    ensures Closing(Apply(s, Step(0, Success(false))), NextClose(pc), pc.CloseClear?)
  {
    assert Ids([]) == {};
    assert map[] + (map id | id in Ids([]) :: Cleared) == map[];
  }

  lemma {:induction false} CloseCompletes(events: seq<Event>, pc: Pc) returns (closed: seq<Event>)
    requires Closing(Run(Init(), events), pc, false) && IsClose(pc)
    ensures Closing(Run(Init(), closed), Finished(Ok(())), true)
    decreases if pc.CloseStore? then 4 else if pc.CloseSignal? then 3 else if pc.CloseTake? then 2
              else if pc.CloseShutdown? then 1 else 0
  {
    var step := Step(0, Success(false));
    CloseStep(Run(Init(), events), pc);
    RunStep(events, step);
    if pc.CloseClear? {
      closed := events + [step];
    } else {
      closed := CloseCompletes(events + [step], NextClose(pc));
    }
  }

  /** A closed association and one late sender. */
  predicate LateSender(s: State, task: Task, retry: seq<Pending>) {
    && s.tasks == map[0 := Task(NO_FRAME, None, Finished(Ok(()))), 1 := task]
    && s.queue.retry == retry && s.queue.cleared && s.queue.nextRetryId == if task.id.None? then 1 else 2
  }

  lemma LateStart(s: State)
    requires Closing(s, Finished(Ok(())), true)
    ensures LateSender(Apply(s, StartSend(1, NO_FRAME)), Task(NO_FRAME, None, SendStart), [])
  {
  }

  lemma LateAllocate(s: State)
    requires LateSender(s, Task(NO_FRAME, None, SendStart), [])
    ensures LateSender(Apply(s, Step(1, Success(false))), Task(NO_FRAME, Some(1), SendPush(1)), [])
  {
  }

  lemma LatePush(s: State)
    requires LateSender(s, Task(NO_FRAME, Some(1), SendPush(1)), [])
    ensures LateSender(Apply(s, Step(1, Success(false))), Task(NO_FRAME, Some(1), SendLoad),
                       [Pending(1, NO_FRAME.target, NO_FRAME.payload)])
  {
  }

  lemma LateCancel(s: State, retry: seq<Pending>)
    requires LateSender(s, Task(NO_FRAME, Some(1), SendLoad), retry)
    ensures LateSender(Apply(s, Cancel(1)), Task(NO_FRAME, Some(1), Cancelled), retry)
  {
  }

  /** The exception is real: a send cancelled after the close leaves a datagram in the queue. */
  lemma CloseMayLeaveDatagram() returns (events: seq<Event>)
    ensures var s := Run(Init(), events);
      && s.queue.cleared && s.queue.retry != []
      && (forall t :: t in s.tasks ==> s.tasks[t].pc.Finished? || s.tasks[t].pc.Cancelled?)
  {
    RunStep([], StartClose(0));
    var closed := CloseCompletes([] + [StartClose(0)], CloseStore);
    var started := closed + [StartSend(1, NO_FRAME)];
    RunStep(closed, StartSend(1, NO_FRAME));
    LateStart(Run(Init(), closed));
    var numbered := LateSteps(started);
    LateCancel(Run(Init(), numbered), [Pending(1, NO_FRAME.target, NO_FRAME.payload)]);
    RunStep(numbered, Cancel(1));
    events := numbered + [Cancel(1)];
  }

  lemma LateSteps(started: seq<Event>) returns (queued: seq<Event>)
    requires LateSender(Run(Init(), started), Task(NO_FRAME, None, SendStart), [])
    ensures LateSender(Run(Init(), queued), Task(NO_FRAME, Some(1), SendLoad),
                       [Pending(1, NO_FRAME.target, NO_FRAME.payload)])
  {
    var step := Step(1, Success(false));
    LateAllocate(Run(Init(), started));
    RunStep(started, step);
    LatePush(Run(Init(), started + [step]));
    RunStep(started + [step], step);
    queued := started + [step] + [step];
  }

  /**
   * A datagram whose send returned success is still queued, with its own
   * contents, unless a reply acknowledged it or a close cleared the queue.
   */
  lemma SentStaysQueued(events: seq<Event>, t: TaskId)
    ensures var s := Run(Init(), events);
      t in s.tasks && s.tasks[t].pc.Sent? ==>
        && s.tasks[t].id.Some?
        && var id := s.tasks[t].id.value;
        || Pending(id, s.tasks[t].frame.target, s.tasks[t].frame.payload) in s.queue.retry
        || (id in s.queue.removed && s.queue.removed[id] in {Acked, Cleared})
  {
    InvInit();
    InvRun(Init(), events);
    var s := Run(Init(), events);
    if t in s.tasks && s.tasks[t].pc.Sent? {
      assert TaskInv(s.control, s.queue, s.net, t, s.tasks[t]);
      var id := s.tasks[t].id.value;
      if id in Ids(s.queue.retry) {
        var p :| p in s.queue.retry && p.id == id;
        assert p == Pending(id, s.tasks[t].frame.target, s.tasks[t].frame.payload);
      }
    }
  }

  /** The step that takes a sent datagram out of the queue is an acknowledgement or a close. */
  lemma OnlyAckOrCloseRemoves(events: seq<Event>, e: Event, t: TaskId)
    ensures var s := Run(Init(), events); var s' := Apply(s, e);
      t in s.tasks && s.tasks[t].pc.Sent? && s.tasks[t].id.Some? &&
      s.tasks[t].id.value in Ids(s.queue.retry) && s.tasks[t].id.value !in Ids(s'.queue.retry) ==>
        e.Step? && e.t in s.tasks && (s.tasks[e.t].pc.RecvAck? || s.tasks[e.t].pc.CloseClear?)
  {
    InvInit();
    InvRun(Init(), events);
    var s := Run(Init(), events);
    if t in s.tasks && s.tasks[t].pc.Sent? && s.tasks[t].id.Some? {
      SentLeavesBy(s, e, t);
    }
  }

  lemma SentLeavesBy(s: State, e: Event, t: TaskId)
    requires Inv(s) && t in s.tasks && s.tasks[t].pc.Sent? && s.tasks[t].id.Some?
    ensures s.tasks[t].id.value in Ids(s.queue.retry) && s.tasks[t].id.value !in Ids(Apply(s, e).queue.retry) ==>
      e.Step? && e.t in s.tasks && (s.tasks[e.t].pc.RecvAck? || s.tasks[e.t].pc.CloseClear?)
  {
    if e.Step? && e.t in s.tasks {
      SentLeaves(s, e, t, s.tasks[t].id.value);
    } else if (e.Interrupt? || e.Cancel?) && e.t in s.tasks {
      QueueOnlySteps(s, s.tasks[e.t], e);
    }
  }

  lemma QueueOnlySteps(s: State, task: Task, e: Event)
    requires e.Interrupt? || e.Cancel?
    ensures Decide(s, task, e).queue.KeepQueue?
  {
  }

  lemma SentLeaves(s: State, e: Event, t: TaskId, id: nat)
    requires Inv(s) && e.Step? && e.t in s.tasks && t in s.tasks && s.tasks[t].pc.Sent? && s.tasks[t].id == Some(id)
    ensures var d := Decide(s, s.tasks[e.t], e);
      id in Ids(s.queue.retry) && id !in Ids(DoQueue(s.queue, d.queue, e.t).retry) ==>
        s.tasks[e.t].pc.RecvAck? || s.tasks[e.t].pc.CloseClear?
  {
    QueueOps(s, s.tasks[e.t], e);
    QueueMove(s, e.t, e);
    DropIsOwn(s, e.t, e, t, id);
  }

  /** Whatever visible session a reconnect installed, its replay is already on its wire. */
  lemma ReplayPrecedesVisibility(events: seq<Event>)
    ensures var s := Run(Init(), events);
      && (forall r :: r in s.control.installs ==> r.sid in s.net.streams && r.unacked <= s.net.streams[r.sid].wire)
      && (s.control.session.Some? && s.control.session.value != FIRST_SESSION ==>
            exists r :: r in s.control.installs && r.sid == s.control.session.value)
  {
    InvInit();
    InvRun(Init(), events);
  }

  predicate HasReplacement(stage: Stage) {
    stage.Replay? || stage.CheckBeforeInstall? || stage.LockSession? || stage.CheckLocked? || stage.Install?
  }

  /** A task preparing session `sid` past its snapshot is replaying `unacked`. */
  predicate Carries(pc: Pc, sid: SessionId, unacked: seq<Frame>) {
    pc.Reconnect? ==>
      && (pc.stage.TakeSnapshot? ==> pc.stage.sid != sid)
      && (HasReplacement(pc.stage) && pc.stage.sid == sid ==> pc.stage.unacked == unacked)
  }

  ghost predicate Tracked(s: State, sid: SessionId, unacked: seq<Frame>) {
    && sid < s.net.nextSession
    && (forall r :: r in s.control.installs && r.sid == sid ==> r.unacked == unacked)
    && (forall t :: t in s.tasks ==> Carries(s.tasks[t].pc, sid, unacked))
  }

  lemma CarriesMove(s: State, task: Task, e: Event, sid: SessionId, unacked: seq<Frame>)
    requires sid < s.net.nextSession && Carries(task.pc, sid, unacked)
    ensures var d := Decide(s, task, e);
      && Carries(d.pc, sid, unacked)
      && (d.control.InstallSession? && d.control.replacement.sid == sid ==> d.control.replacement.unacked == unacked)
  {
  }

  lemma TrackedStep(s: State, e: Event, sid: SessionId, unacked: seq<Frame>)
    requires Tracked(s, sid, unacked)
    ensures Tracked(Apply(s, e), sid, unacked)
  {
    if !e.Background? && e.t in s.tasks {
      var d := Decide(s, s.tasks[e.t], e);
      CarriesMove(s, s.tasks[e.t], e, sid, unacked);
      assert DoControl(s.control, d.control, e.t).installs ==
             s.control.installs + (if d.control.InstallSession? then [d.control.replacement] else []);
    }
  }

  lemma {:induction false} TrackedRun(s: State, events: seq<Event>, sid: SessionId, unacked: seq<Frame>)
    requires Tracked(s, sid, unacked)
    ensures Tracked(Run(s, events), sid, unacked)
  {
    if events != [] {
      TrackedRun(s, events[..|events| - 1], sid, unacked);
      TrackedStep(Run(s, events[..|events| - 1]), events[|events| - 1], sid, unacked);
    }
  }

  /**
   * Take any run that brings task `t` to its queue snapshot for session
   * `sid`, then any continuation. If the session is visible at the end, the
   * queue as it was at the snapshot is on its wire, first and in order.
   */
  lemma SnapshotReachesTheWire(before: seq<Event>, t: TaskId, io: IoOutcome, after: seq<Event>, sid: SessionId)
    requires var s := Run(Init(), before);
      t in s.tasks && s.tasks[t].pc.Reconnect? && s.tasks[t].pc.stage == TakeSnapshot(sid)
    ensures var s := Run(Init(), before); var s' := Run(Apply(s, Step(t, io)), after);
      s'.control.session == Some(sid) ==>
        sid in s'.net.streams && Snapshot(s.queue.retry) <= s'.net.streams[sid].wire
  {
    var s := Run(Init(), before);
    InvInit();
    InvRun(Init(), before);
    InvStep(s, Step(t, io));
    var s1 := Apply(s, Step(t, io));
    InvRun(s1, after);
    SnapshotStarts(s, t, io, sid);
    TrackedRun(s1, after, sid, Snapshot(s.queue.retry));
  }

  lemma SnapshotStarts(s: State, t: TaskId, io: IoOutcome, sid: SessionId)
    requires Inv(s) && t in s.tasks && s.tasks[t].pc.Reconnect? && s.tasks[t].pc.stage == TakeSnapshot(sid)
    ensures sid != FIRST_SESSION && Tracked(Apply(s, Step(t, io)), sid, Snapshot(s.queue.retry))
  {
    assert TaskInv(s.control, s.queue, s.net, t, s.tasks[t]);
    NoOtherCarries(s, t, sid, Snapshot(s.queue.retry));
    SnapshotDecides(s, t, s.tasks[t], io, sid);
    SnapshotTracks(s, t, Decide(s, s.tasks[t], Step(t, io)), sid, Snapshot(s.queue.retry));
  }

  lemma NoOtherCarries(s: State, t: TaskId, sid: SessionId, unacked: seq<Frame>)
    requires Inv(s) && t in s.tasks && HoldsReconnectLock(s.tasks[t].pc)
    ensures forall u :: u in s.tasks && u != t ==> Carries(s.tasks[u].pc, sid, unacked)
  {
    forall u | u in s.tasks && u != t
      ensures Carries(s.tasks[u].pc, sid, unacked)
    {
      OneReconnect(s, t, u);
    }
  }

  lemma SnapshotTracks(s: State, t: TaskId, d: Decision, sid: SessionId, unacked: seq<Frame>)
    requires SharedStreams(s.control, s.net) && Preparing(s.control, s.net, sid, []) && t in s.tasks
    requires forall u :: u in s.tasks && u != t ==> Carries(s.tasks[u].pc, sid, unacked)
    requires d.control.KeepControl? && d.net.KeepNet? && d.pc.Reconnect? && d.pc.stage == Replay(sid, unacked, 0)
    ensures sid != FIRST_SESSION && Tracked(Perform(s, t, s.tasks[t], d), sid, unacked)
  {
  }

  lemma SnapshotDecides(s: State, t: TaskId, task: Task, io: IoOutcome, sid: SessionId)
    requires task.pc.Reconnect? && task.pc.stage == TakeSnapshot(sid)
    ensures var d := Decide(s, task, Step(t, io));
      && d.control.KeepControl? && d.net.KeepNet?
      && d.pc.Reconnect? && d.pc.stage == Replay(sid, Snapshot(s.queue.retry), 0)
  {
  }

  /** While one task holds the reconnect lock, no other prepares a session. */
  lemma OneReconnect(s: State, t: TaskId, u: TaskId)
    requires Inv(s) && t in s.tasks && u in s.tasks && u != t && HoldsReconnectLock(s.tasks[t].pc)
    ensures !HoldsReconnectLock(s.tasks[u].pc)
  {
    assert TaskInv(s.control, s.queue, s.net, t, s.tasks[t]) && TaskInv(s.control, s.queue, s.net, u, s.tasks[u]);
  }

  /**
   * The generation is one plus the number of installed replacements whenever
   * the session can be read, and no two replacements answer the same failed
   * generation.
   */
  lemma OneInstallPerGeneration(events: seq<Event>)
    ensures var c := Run(Init(), events).control;
      && (c.sessionLock.None? ==> c.generation == 1 + |c.installs|)
      && |c.installs| <= c.generation <= 1 + |c.installs|
      && (forall i, j :: 0 <= i < j < |c.installs| ==> c.installs[i].failed != c.installs[j].failed)
  {
    InvInit();
    InvRun(Init(), events);
    var s := Run(Init(), events);
    if s.control.sessionLock.Some? {
      var t := s.control.sessionLock.value;
      assert TaskInv(s.control, s.queue, s.net, t, s.tasks[t]);
    }
  }
}
