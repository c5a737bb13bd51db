/** What callers of the recovery protocol are told: when nothing can succeed any more, and where errors come from. */
module UotOutcomes {
  import opened Common
  import opened RetryQueues
  import opened UotRecovery
  import opened UotRecoverySafety
  import opened UotDelivery

  // ------------------------------------------------------------- after a close

  /** Past the last look at the closed flag, successful, or a close itself. */
  predicate Settled(pc: Pc) {
    pc.Sent? || pc.RecvAck? || IsClose(pc) || (pc.Finished? && pc.outcome.Ok?)
  }

  lemma ClosedMove(s: State, task: Task, e: Event)
    requires s.control.closed && !Settled(task.pc)
    ensures !Settled(Decide(s, task, e).pc)
  {
  }

  lemma {:induction false} ClosedStays(s: State, events: seq<Event>)
    requires s.control.closed
    ensures Run(s, events).control.closed
  {
    if events != [] {
      ClosedStays(s, events[..|events| - 1]);
    }
  }

  /**
   * Once the association is closed, no send and no receive that has not
   * looked at the flag for the last time succeeds, in whatever way the run goes on.
   */
  lemma {:induction false} NothingSucceedsAfterClose(s: State, events: seq<Event>, t: TaskId)
    requires s.control.closed && (t in s.tasks ==> !Settled(s.tasks[t].pc)) && StartClose(t) !in events
    ensures t in Run(s, events).tasks ==> !Settled(Run(s, events).tasks[t].pc)
  {
    if events != [] {
      var past, e := events[..|events| - 1], events[|events| - 1];
      assert e in events && forall x :: x in past ==> x in events;
      NothingSucceedsAfterClose(s, past, t);
      ClosedStays(s, past);
      var s' := Run(s, past);
      if t in s'.tasks && (e.Step? || e.Interrupt? || e.Cancel?) && e.t == t {
        ClosedMove(s', s'.tasks[t], e);
      }
    }
  }

  /** Whoever has got past waking the others up has woken them up. */
  predicate Signalled(s: State, pc: Pc) {
    pc.CloseTake? || pc.CloseShutdown? || pc.CloseClear? ==> s.control.closed && s.control.signalled
  }

  lemma FlagsStay(c: Control, op: ControlOp, t: TaskId)
    ensures var c' := DoControl(c, op, t); (c.closed ==> c'.closed) && (c.signalled ==> c'.signalled)
  {
  }

  lemma SignalMove(s: State, t: TaskId, task: Task, e: Event)
    requires Signalled(s, task.pc) && (task.pc.CloseSignal? ==> s.control.closed)
    ensures var d := Decide(s, task, e); var c := DoControl(s.control, d.control, t);
      d.pc.CloseTake? || d.pc.CloseShutdown? || d.pc.CloseClear? ==> c.closed && c.signalled
  {
    var d := Decide(s, task, e);
    FlagsStay(s.control, d.control, t);
    if IsClose(d.pc) {
      OnlyClosersClose(s, task, e);
    }
  }

  lemma OnlyClosersClose(s: State, task: Task, e: Event)
    ensures var d := Decide(s, task, e);
      IsClose(d.pc) ==> IsClose(task.pc) && (d.pc == task.pc || (e.Step? && d == CloseDecision(s, task.pc, e.io)))
  {
  }

  ghost predicate AllSignalled(s: State) {
    forall t :: t in s.tasks ==> Signalled(s, s.tasks[t].pc)
  }

  lemma SignalStep(s: State, e: Event)
    requires AllSignalled(s) && (e.Step? || e.Interrupt? || e.Cancel?) && e.t in s.tasks
    requires s.tasks[e.t].pc.CloseSignal? ==> s.control.closed
    ensures AllSignalled(Apply(s, e))
  {
    SignalMove(s, e.t, s.tasks[e.t], e);
    FlagsStay(s.control, Decide(s, s.tasks[e.t], e).control, e.t);
  }

  /** Over every run, a close that goes on to take the session has raised the flag and sent the notice. */
  lemma {:induction false} CloseWakesEverybody(events: seq<Event>)
    ensures AllSignalled(Run(Init(), events))
  {
    if events != [] {
      var s, e := Run(Init(), events[..|events| - 1]), events[|events| - 1];
      CloseWakesEverybody(events[..|events| - 1]);
      if (e.Step? || e.Interrupt? || e.Cancel?) && e.t in s.tasks {
        InvInit();
        InvRun(Init(), events[..|events| - 1]);
        TakeFollowsStore(s, e.t);
        SignalStep(s, e);
      }
    }
  }

  /** A receive waiting for anything, a packet or a lock, returns as soon as it takes the close notice. */
  lemma WokenReceiveReturns(s: State, t: TaskId, io: IoOutcome)
    requires s.control.closed && s.control.signalled && t in s.tasks
    requires var pc := s.tasks[t].pc;
      || pc.RecvCheck? || pc.RecvClone? || pc.RecvRead?
      || (pc.Reconnect? && pc.caller.ByRecv? && !Uninterruptible(pc))
    ensures var s' := Apply(Apply(s, Interrupt(t)), Step(t, io));
      && t in s'.tasks && s'.tasks[t].pc == Finished(Err(Closed))
      && s'.queue == s.queue && s'.net == s.net && s'.control.session == s.control.session
  {
    var pc := s.tasks[t].pc;
    var s1 := Apply(s, Interrupt(t));
    assert s1.tasks[t].pc == (if pc.Reconnect? || pc.attempts >= MAX_UOT_RECONNECT_ATTEMPTS
                              then Finished(Err(Closed))
                              else Reconnect(ByRecv(pc.attempts), pc.gen, CheckOpen));
  }

  /** Where a woken send is on its way out. */
  predicate Leaving(s: State, s': State, t: TaskId, pc: Pc) {
    && t in s.tasks && t in s'.tasks && s'.tasks[t] == s.tasks[t].(pc := pc)
    && s'.queue == s.queue && s'.net == s.net && s'.control.closed
  }

  function WithoutOwn(retry: seq<Pending>, id: Option<nat>): seq<Pending> {
    if id.Some? then RemoveId(retry, id.value) else retry
  }

  lemma DropTakesOwn(q: Queue, id: nat)
    ensures DoDrop(q, id).retry == RemoveId(q.retry, id)
  {
    var i := FirstWhere(q.retry, (f: Pending) => f.id == id);
    if i < |q.retry| {
      assert q.retry[i] in q.retry;
    }
  }

  /** The last step of a send that gives up. */
  lemma DropLeaves(s: State, t: TaskId, io: IoOutcome)
    requires t in s.tasks && s.tasks[t].pc.SendDrop?
    ensures var s' := Apply(s, Step(t, io));
      && t in s'.tasks && s'.tasks[t].pc == Finished(Err(s.tasks[t].pc.error)) && s'.net == s.net
      && s'.queue.retry == WithoutOwn(s.queue.retry, s.tasks[t].id)
  {
    DropDecides(s, s.tasks[t], io);
    if s.tasks[t].id.Some? {
      DropTakesOwn(s.queue, s.tasks[t].id.value);
    }
  }

  lemma DropDecides(s: State, task: Task, io: IoOutcome)
    requires task.pc.SendDrop?
    ensures SendDecision(s, task, io) ==
              Go(Finished(Err(task.pc.error))).(queue := if task.id.Some? then DropRetry(task.id.value) else KeepQueue)
  {
  }

  /** A send that takes the close notice ends with the same error and takes its datagram out of the queue. */
  lemma WokenSendReturns(s: State, t: TaskId, io: IoOutcome)
    requires s.control.closed && s.control.signalled && t in s.tasks
    requires s.tasks[t].pc.SendCheck? || s.tasks[t].pc.SendClone? || s.tasks[t].pc.SendWrite?
    ensures var step := Step(t, io);
      var s' := Apply(Apply(Apply(Apply(s, Interrupt(t)), step), step), step);
      && t in s'.tasks && s'.tasks[t].pc == Finished(Err(Closed)) && s'.net == s.net
      && s'.queue.retry == WithoutOwn(s.queue.retry, s.tasks[t].id)
  {
    var s1 := Apply(s, Interrupt(t));
    WokenSend(s, t);
    var s2 := Apply(s1, Step(t, io));
    RetryOnce(s, s1, t, io);
    var s3 := Apply(s2, Step(t, io));
    assert Leaving(s, s3, t, SendDrop(Closed));
    DropLeaves(s3, t, io);
  }

  lemma WokenSend(s: State, t: TaskId)
    requires s.control.closed && s.control.signalled && t in s.tasks
    requires s.tasks[t].pc.SendCheck? || s.tasks[t].pc.SendClone? || s.tasks[t].pc.SendWrite?
    ensures Leaving(s, Apply(s, Interrupt(t)), t, SendRetry(s.tasks[t].pc.gen, 0, Closed))
  {
  }

  lemma RetryOnce(s: State, s': State, t: TaskId, io: IoOutcome)
    requires t in s.tasks && (s.tasks[t].pc.SendCheck? || s.tasks[t].pc.SendClone? || s.tasks[t].pc.SendWrite?)
    requires Leaving(s, s', t, SendRetry(s.tasks[t].pc.gen, 0, Closed))
    ensures Leaving(s, Apply(s', Step(t, io)), t, Reconnect(BySend(1), s.tasks[t].pc.gen, CheckOpen))
  {
  }

  // ---------------------------------------------------------- one whole close

  lemma CloseAnnounces(s: State, t: TaskId, io: IoOutcome)
    requires t in s.tasks && s.tasks[t].pc.CloseStore?
    ensures var step := Step(t, io); var s2 := Apply(Apply(s, step), step);
      && s2.control == s.control.(closed := true, signalled := true)
      && s2.queue == s.queue && t in s2.tasks && s2.tasks[t].pc.CloseTake?
  {
    var s1 := Apply(s, Step(t, io));
    assert s1.control == s.control.(closed := true) && s1.tasks[t].pc.CloseSignal? && s1.queue == s.queue;
  }

  /** A close that finds a session goes on to shut it down; one that finds none has nothing to report. */
  lemma CloseTakesTheSession(s: State, t: TaskId, io: IoOutcome)
    requires t in s.tasks && s.tasks[t].pc.CloseStore? && s.control.sessionLock.None?
    ensures var step := Step(t, io); var s3 := Apply(Apply(Apply(s, step), step), step);
      && s3.control == s.control.(closed := true, signalled := true, session := None, taken := true)
      && s3.queue == s.queue && t in s3.tasks
      && s3.tasks[t].pc == if s.control.session.Some? then CloseShutdown else CloseClear(Ok(()))
  {
    CloseAnnounces(s, t, io);
  }

  /** The result of a close is the result of the shutdown, and the queue is empty whatever that was. */
  lemma CloseReportsShutdown(s: State, t: TaskId, io: IoOutcome)
    requires t in s.tasks && s.tasks[t].pc.CloseShutdown?
    ensures var step := Step(t, io); var s2 := Apply(Apply(s, step), step);
      && s2.queue.retry == [] && s2.control == s.control && s2.net == s.net && t in s2.tasks
      && s2.tasks[t].pc == Finished(if io.Failure? then Err(io.kind) else Ok(()))
  {
    var s1 := Apply(s, Step(t, io));
    assert s1.control == s.control && s1.net == s.net;
    assert s1.tasks[t].pc == CloseClear(if io.Failure? then Err(io.kind) else Ok(()));
  }

  // ------------------------------------------------------------------- failures

  /** Errors no new connection would cure. */
  predicate Permanent(kind: ErrorKind) {
    kind.InvalidInput? || kind.NotFound? || kind.Conflict? || kind.Unsupported? || kind.Storage?
  }

  lemma FailedWrite(s: State, t: TaskId, kind: ErrorKind, breaks: bool, accepted: nat)
    requires t in s.tasks && s.tasks[t].pc.SendWrite?
    ensures var s' := Apply(s, Step(t, Failure(kind, breaks, accepted)));
      && t in s'.tasks && s'.queue == s.queue && s'.tasks[t].id == s.tasks[t].id
      && s'.tasks[t].pc == if Permanent(kind) then SendDrop(kind) else SendRetry(s.tasks[t].pc.gen, 0, kind)
  {
  }

  /** A failed write: a permanent error ends the send and forgets the datagram, any other starts to reconnect. */
  lemma FailedSend(s: State, t: TaskId, kind: ErrorKind, breaks: bool, accepted: nat, io: IoOutcome)
    requires t in s.tasks && s.tasks[t].pc.SendWrite?
    ensures var s1 := Apply(s, Step(t, Failure(kind, breaks, accepted))); var s2 := Apply(s1, Step(t, io));
      && t in s2.tasks && s2.net == s1.net
      && (Permanent(kind) ==>
            && s2.tasks[t].pc == Finished(Err(kind))
            && s2.queue.retry == WithoutOwn(s.queue.retry, s.tasks[t].id))
      && (!Permanent(kind) ==>
            s2.tasks[t].pc == Reconnect(BySend(1), s.tasks[t].pc.gen, CheckOpen) && s2.queue == s.queue)
  {
    var s1 := Apply(s, Step(t, Failure(kind, breaks, accepted)));
    FailedWrite(s, t, kind, breaks, accepted);
    if Permanent(kind) {
      DropLeaves(s1, t, io);
    }
  }

  /** A failed read: reconnect unless the error is permanent or the attempts are used up. */
  lemma FailedReceive(s: State, t: TaskId, kind: ErrorKind, breaks: bool, accepted: nat)
    requires t in s.tasks && s.tasks[t].pc.RecvRead?
    ensures var s' := Apply(s, Step(t, Failure(kind, breaks, accepted))); var pc := s.tasks[t].pc;
      && t in s'.tasks && s'.queue == s.queue && s'.net == s.net && s'.control == s.control
      && (s'.tasks[t].pc == Finished(Err(kind)) <==> Permanent(kind) || pc.attempts >= MAX_UOT_RECONNECT_ATTEMPTS)
      && (s'.tasks[t].pc == Reconnect(ByRecv(pc.attempts), pc.gen, CheckOpen) <==>
            !Permanent(kind) && pc.attempts < MAX_UOT_RECONNECT_ATTEMPTS)
  {
  }

  /** When the attempts are used up the last error is returned, and the datagram waits for somebody else's replay. */
  lemma ExhaustedSendStaysQueued(s: State, t: TaskId, io: IoOutcome)
    requires t in s.tasks && s.tasks[t].pc.SendRetry? && s.tasks[t].pc.attempts >= MAX_UOT_RECONNECT_ATTEMPTS
    ensures var s' := Apply(s, Step(t, io));
      && t in s'.tasks && s'.tasks[t].pc == Finished(Err(s.tasks[t].pc.error))
      && s'.queue == s.queue && s'.net == s.net && s'.control == s.control
  {
  }

  /** A failed write that breaks the connection: a prefix got out, and the session carries nothing ever after. */
  lemma BrokenSessionIsDead(s: State, t: TaskId, kind: ErrorKind, accepted: nat)
    requires t in s.tasks && s.tasks[t].pc.SendWrite? && Writable(s.net, s.tasks[t].pc.sid)
    ensures var sid := s.tasks[t].pc.sid; var stream := s.net.streams[sid];
      var s1 := Apply(s, Step(t, Failure(kind, true, accepted)));
      && sid in s1.net.streams && s1.net.streams[sid].broken
      && Content(s1.net.streams[sid]) == Content(stream) + [s.tasks[t].frame]
      && |s1.net.streams[sid].wire| <= |stream.wire| + accepted
  {
    TornContent(s.net.streams[s.tasks[t].pc.sid], [s.tasks[t].frame], accepted);
  }

  predicate Dead(s: State, sid: SessionId, stream: Stream) {
    sid in s.net.streams && sid < s.net.nextSession && s.net.streams[sid] == stream && stream.broken
  }

  lemma {:induction false} DeadSessionsStay(s: State, events: seq<Event>, sid: SessionId)
    requires sid in s.net.streams && Dead(s, sid, s.net.streams[sid])
    ensures Dead(Run(s, events), sid, s.net.streams[sid])
  {
    if events != [] {
      DeadSessionsStay(s, events[..|events| - 1], sid);
    }
  }

  /** A replacement a close finds not yet installed is shut down; the session stays, and the locks are free. */
  lemma LateReplacementIsShutDown(s: State, t: TaskId, io: IoOutcome)
    requires Inv(s) && s.control.closed && t in s.tasks && s.tasks[t].pc.Reconnect? && s.tasks[t].pc.caller.ByRecv?
    requires s.tasks[t].pc.stage.CheckBeforeInstall? || s.tasks[t].pc.stage.CheckLocked?
    ensures var s' := Apply(s, Step(t, io));
      && t in s'.tasks && s'.tasks[t].pc == Finished(Err(if io.Failure? then io.kind else Closed))
      && s'.control.session == s.control.session && s'.control.installs == s.control.installs
      && s'.control.generation == s.control.generation
      && s'.control.reconnectLock.None? && (s.tasks[t].pc.stage.CheckLocked? ==> s'.control.sessionLock.None?)
  {
    assert TaskInv(s.control, s.queue, s.net, t, s.tasks[t]);
  }

  /** A reply too long for the caller's buffer is refused and acknowledges nothing. */
  lemma OversizedReplyAcknowledgesNothing(s: State, t: TaskId, source: Endpoint, payload: seq<Byte>, io: IoOutcome)
    requires t in s.tasks && s.tasks[t].pc.RecvRead?
    ensures var s' := Apply(Apply(s, Step(t, Received(source, payload, false))), Step(t, io));
      && t in s'.tasks && s'.queue == s.queue
      && s'.tasks[t].pc == Finished(Err(if s.control.closed then Closed else InvalidInput))
  {
    ReplyArrives(s, t, Received(source, payload, false));
    ReplyIsRefused(Apply(s, Step(t, Received(source, payload, false))), t, io);
  }

  lemma ReplyArrives(s: State, t: TaskId, io: IoOutcome)
    requires t in s.tasks && s.tasks[t].pc.RecvRead? && io.Received?
    ensures var s' := Apply(s, Step(t, io));
      && s'.queue == s.queue && s'.control == s.control
      && t in s'.tasks && s'.tasks[t].pc == RecvFinal(io.source, io.payload, io.fits)
  {
  }

  lemma ReplyIsRefused(s: State, t: TaskId, io: IoOutcome)
    requires t in s.tasks && s.tasks[t].pc.RecvFinal? && !s.tasks[t].pc.fits
    ensures var s' := Apply(s, Step(t, io));
      && t in s'.tasks && s'.queue == s.queue
      && s'.tasks[t].pc == Finished(Err(if s.control.closed then Closed else InvalidInput))
  {
  }

  // ------------------------------------------------------ where errors come from

  /** The error a task is about to return, or has returned. */
  function InHand(pc: Pc): Option<ErrorKind> {
    match pc
    case SendRetry(_, _, error) => Some(error)
    case SendDrop(error) => Some(error)
    case CloseClear(Err(error)) => Some(error)
    case Finished(Err(error)) => Some(error)
    case _ => None
  }

  predicate Failed(events: seq<Event>, t: TaskId, kind: ErrorKind) {
    exists e :: e in events && IsFailure(e, t, kind)
  }

  predicate IsFailure(e: Event, t: TaskId, kind: ErrorKind) {
    e.Step? && e.t == t && e.io.Failure? && e.io.kind == kind
  }

  predicate TooLong(events: seq<Event>, t: TaskId) {
    exists e :: e in events && e.Step? && e.t == t && e.io.Received? && !e.io.fits
  }

  /** `t` was about to queue its datagram and there was no room. */
  predicate NoRoom(s: State, t: TaskId) {
    && t in s.tasks && s.tasks[t].pc.SendPush?
    && !Fits(s.queue.retry, Pending(s.tasks[t].pc.id, s.tasks[t].frame.target, s.tasks[t].frame.payload))
  }

  ghost predicate RanOutOfRoom(events: seq<Event>, t: TaskId) {
    exists before, after :: events == before + after && NoRoom(Run(Init(), before), t)
  }

  ghost predicate Blamed(events: seq<Event>, closed: bool, t: TaskId, kind: ErrorKind) {
    || Failed(events, t, kind)
    || (kind == Closed && closed)
    || (kind == Timeout && RanOutOfRoom(events, t))
    || (kind == InvalidInput && TooLong(events, t))
  }

  ghost predicate TaskBlamed(events: seq<Event>, closed: bool, t: TaskId, pc: Pc) {
    && (InHand(pc).Some? ==> Blamed(events, closed, t, InHand(pc).value))
    && (pc.RecvFinal? && !pc.fits ==> TooLong(events, t))
  }

  lemma BlameGrows(events: seq<Event>, e: Event, closed: bool, closed': bool, t: TaskId, pc: Pc)
    requires TaskBlamed(events, closed, t, pc) && (closed ==> closed')
    ensures TaskBlamed(events + [e], closed', t, pc)
  {
    var more := events + [e];
    assert forall x :: x in events ==> x in more;
    if RanOutOfRoom(events, t) {
      var before, after :| events == before + after && NoRoom(Run(Init(), before), t);
      ConcatIsAssociative(before, after, [e]);
      assert more == before + (after + [e]);
    }
  }

  /** Why a step may hand out an error. */
  predicate Cause(s: State, t: TaskId, pc: Pc, e: Event, kind: ErrorKind) {
    || InHand(pc) == Some(kind)
    || IsFailure(e, t, kind)
    || (kind == Closed && s.control.closed)
    || (kind == Timeout && NoRoom(s, t))
    || (kind == InvalidInput && pc.RecvFinal? && !pc.fits)
  }

  /** A session is missing, or a close notice out, only after a close. */
  predicate ClosedIsKnown(c: Control) {
    (c.session.None? || c.signalled ==> c.closed) && (c.taken ==> c.closed)
  }

  lemma SendErrors(s: State, t: TaskId, io: IoOutcome)
    requires ClosedIsKnown(s.control) && t in s.tasks
    ensures var kind := InHand(SendDecision(s, s.tasks[t], io).pc);
      kind.Some? ==> Cause(s, t, s.tasks[t].pc, Step(t, io), kind.value)
  {
  }

  lemma RecvErrors(s: State, t: TaskId, io: IoOutcome)
    requires ClosedIsKnown(s.control) && t in s.tasks
    ensures var pc' := RecvDecision(s, s.tasks[t], io).pc; var kind := InHand(pc');
      && (kind.Some? ==> Cause(s, t, s.tasks[t].pc, Step(t, io), kind.value))
      && (pc'.RecvFinal? && !pc'.fits ==> pc' == s.tasks[t].pc || (io.Received? && !io.fits))
  {
  }

  lemma ReconnectErrors(s: State, t: TaskId, io: IoOutcome)
    requires t in s.tasks && s.tasks[t].pc.Reconnect?
    ensures var pc := s.tasks[t].pc;
      var pc' := ReconnectDecision(s, pc.caller, pc.gen, pc.stage, io).pc; var kind := InHand(pc');
      && (kind.Some? ==> Cause(s, t, pc, Step(t, io), kind.value))
      && !pc'.RecvFinal?
  {
  }

  lemma OtherErrors(s: State, t: TaskId, e: Event)
    requires ClosedIsKnown(s.control) && t in s.tasks && (e.Interrupt? || e.Cancel? || IsClose(s.tasks[t].pc))
    requires e.Step? ==> e.t == t
    ensures var pc' := Decide(s, s.tasks[t], e).pc; var kind := InHand(pc');
      && (kind.Some? ==> Cause(s, t, s.tasks[t].pc, e, kind.value))
      && (pc'.RecvFinal? ==> pc' == s.tasks[t].pc)
  {
  }

  /** Every error a step hands out, with its cause. */
  lemma NewError(s: State, t: TaskId, e: Event)
    requires ClosedIsKnown(s.control) && t in s.tasks && (e.Step? || e.Interrupt? || e.Cancel?) && e.t == t
    ensures var pc' := Decide(s, s.tasks[t], e).pc; var kind := InHand(pc');
      && (kind.Some? ==> Cause(s, t, s.tasks[t].pc, e, kind.value))
      && (pc'.RecvFinal? && !pc'.fits ==> pc' == s.tasks[t].pc || (e.Step? && e.io.Received? && !e.io.fits))
  {
    if !e.Step? || IsClose(s.tasks[t].pc) {
      OtherErrors(s, t, e);
    } else if s.tasks[t].pc.Reconnect? {
      ReconnectErrors(s, t, e.io);
    } else {
      SendErrors(s, t, e.io);
      RecvErrors(s, t, e.io);
    }
  }

  lemma KnownMove(s: State, t: TaskId, task: Task, e: Event)
    requires ClosedIsKnown(s.control) && (task.pc.CloseSignal? || task.pc.CloseTake? ==> s.control.closed)
    ensures ClosedIsKnown(DoControl(s.control, Decide(s, task, e).control, t))
  {
  }

  lemma TakeFollowsStore(s: State, t: TaskId)
    requires Inv(s) && t in s.tasks
    ensures s.tasks[t].pc.CloseSignal? || s.tasks[t].pc.CloseTake? ==> s.control.closed
  {
    assert TaskInv(s.control, s.queue, s.net, t, s.tasks[t]);
  }

  lemma {:induction false} RunKnown(events: seq<Event>)
    ensures ClosedIsKnown(Run(Init(), events).control)
  {
    if events != [] {
      var s, e := Run(Init(), events[..|events| - 1]), events[|events| - 1];
      RunKnown(events[..|events| - 1]);
      if (e.Step? || e.Interrupt? || e.Cancel?) && e.t in s.tasks {
        InvInit();
        InvRun(Init(), events[..|events| - 1]);
        TakeFollowsStore(s, e.t);
        KnownMove(s, e.t, s.tasks[e.t], e);
      }
    }
  }

  lemma BlameMove(events: seq<Event>, e: Event, t: TaskId)
    requires var s := Run(Init(), events);
      ClosedIsKnown(s.control) && t in s.tasks && TaskBlamed(events, s.control.closed, t, s.tasks[t].pc)
    requires (e.Step? || e.Interrupt? || e.Cancel?) && e.t == t
    ensures var s := Run(Init(), events); var s' := Apply(s, e);
      t in s'.tasks && TaskBlamed(events + [e], s'.control.closed, t, s'.tasks[t].pc)
  {
    var s := Run(Init(), events);
    var s' := Apply(s, e);
    NewError(s, t, e);
    ClosedStep(s, e);
    BlameGrows(events, e, s.control.closed, s'.control.closed, t, s.tasks[t].pc);
    assert e in events + [e];
    if NoRoom(s, t) {
      assert events + [e] == events + [e] && NoRoom(Run(Init(), events), t);
    }
  }

  lemma BlameStep(events: seq<Event>, e: Event, t: TaskId)
    requires var s := Run(Init(), events);
      ClosedIsKnown(s.control) && t in s.tasks && TaskBlamed(events, s.control.closed, t, s.tasks[t].pc)
    ensures var s' := Run(Init(), events + [e]);
      t in s'.tasks && TaskBlamed(events + [e], s'.control.closed, t, s'.tasks[t].pc)
  {
    var s := Run(Init(), events);
    RunStep(events, e);
    if (e.Step? || e.Interrupt? || e.Cancel?) && e.t == t {
      BlameMove(events, e, t);
    } else {
      ClosedStep(s, e);
      OthersKeepTheirPlace(s, e, t);
      BlameGrows(events, e, s.control.closed, Apply(s, e).control.closed, t, s.tasks[t].pc);
    }
  }

  lemma OthersKeepTheirPlace(s: State, e: Event, t: TaskId)
    requires t in s.tasks && !((e.Step? || e.Interrupt? || e.Cancel?) && e.t == t)
    ensures t in Apply(s, e).tasks && Apply(s, e).tasks[t] == s.tasks[t]
  {
  }

  lemma FreshIsBlameless(s: State, e: Event, events: seq<Event>, t: TaskId)
    requires t !in s.tasks && t in Apply(s, e).tasks
    ensures TaskBlamed(events, Apply(s, e).control.closed, t, Apply(s, e).tasks[t].pc)
  {
  }

  lemma {:induction false} RunBlamed(events: seq<Event>, t: TaskId)
    requires t in Run(Init(), events).tasks
    ensures var s := Run(Init(), events); TaskBlamed(events, s.control.closed, t, s.tasks[t].pc)
  {
    if events != [] {
      var past, e := events[..|events| - 1], events[|events| - 1];
      assert past + [e] == events;
      if t in Run(Init(), past).tasks {
        RunBlamed(past, t);
        RunKnown(past);
        BlameStep(past, e, t);
      } else {
        FreshIsBlameless(Run(Init(), past), e, events, t);
      }
    }
  }

  lemma ClosedStep(s: State, e: Event)
    ensures s.control.closed ==> Apply(s, e).control.closed
  {
  }

  /**
   * Over every run, an error has a cause: an I/O failure of that very call
   * with that very kind; a close; no room in the retry queue, which is a
   * timeout; or a reply too long for the buffer, which is invalid input.
   */
  lemma ErrorsAreExplained(events: seq<Event>, t: TaskId, kind: ErrorKind)
    requires t in Run(Init(), events).tasks && Run(Init(), events).tasks[t].pc == Finished(Err(kind))
    ensures Blamed(events, Run(Init(), events).control.closed, t, kind)
  {
    RunBlamed(events, t);
  }
}
