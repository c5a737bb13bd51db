/** Runs of the recovery protocol written out: what happens when nothing goes wrong, and one thing that can. */
module UotScenarios {
  import opened Common
  import opened RetryQueues
  import opened UotRecovery
  import opened UotRecoverySafety
  import opened UotDelivery

  // ------------------------------------------------------ a send on a healthy session

  /** An open association with a working session and nobody in the way. */
  predicate Healthy(s: State, sid: SessionId) {
    !s.control.closed && s.control.sessionLock.None? && s.control.session == Some(sid) && Writable(s.net, sid)
  }

  /** The path of a send that meets no obstacle. */
  function NextSend(pc: Pc, id: nat, gen: nat, sid: SessionId): Option<Pc> {
    match pc
    case SendStart => Some(SendPush(id))
    case SendPush(_) => Some(SendLoad)
    case SendLoad => Some(SendCheck(gen))
    case SendCheck(g) => Some(SendClone(g))
    case SendClone(g) => Some(SendWrite(g, sid))
    case SendWrite(_, w) => if w == sid then Some(SendFinal) else None
    case SendFinal => Some(Sent)
    case _ => None
  }

  lemma HealthyStep(s: State, t: TaskId, sid: SessionId, flushed: bool)
    requires Healthy(s, sid) && t in s.tasks
    requires NextSend(s.tasks[t].pc, s.queue.nextRetryId, s.control.generation, sid).Some?
    requires s.tasks[t].pc.SendPush? ==>
      Fits(s.queue.retry, Pending(s.tasks[t].pc.id, s.tasks[t].frame.target, s.tasks[t].frame.payload))
    ensures var s' := Apply(s, Step(t, Success(flushed)));
      && Healthy(s', sid) && s'.control == s.control && t in s'.tasks
      && Some(s'.tasks[t].pc) == NextSend(s.tasks[t].pc, s.queue.nextRetryId, s.control.generation, sid)
      && s'.tasks[t].frame == s.tasks[t].frame
      && (s.tasks[t].pc.SendStart? ==> s'.queue.retry == s.queue.retry)
  {
  }

  function StepsLeft(pc: Pc): nat {
    match pc
    case SendStart => 7
    case SendPush(_) => 6
    case SendLoad => 5
    case SendCheck(_) => 4
    case SendClone(_) => 3
    case SendWrite(_, _) => 2
    case SendFinal => 1
    case _ => 0
  }

  lemma RunOne(s: State, e: Event, events: seq<Event>)
    ensures Run(s, [e] + events) == Run(Apply(s, e), events)
  {
    RunConcat(s, [e], events);
    assert [e][..0] == [];
  }

  /** If there is room in the queue, a send that is left alone on a healthy session succeeds. */
  lemma {:induction false} HealthySendSucceeds(s: State, t: TaskId, sid: SessionId) returns (events: seq<Event>)
    requires Healthy(s, sid) && t in s.tasks && StepsLeft(s.tasks[t].pc) > 0
    requires s.tasks[t].pc.SendWrite? ==> s.tasks[t].pc.sid == sid
    requires s.tasks[t].pc.SendStart? || s.tasks[t].pc.SendPush? ==>
      forall id :: Fits(s.queue.retry, Pending(id, s.tasks[t].frame.target, s.tasks[t].frame.payload))
    ensures t in Run(s, events).tasks && Run(s, events).tasks[t].pc.Sent?
    ensures forall e :: e in events ==> e == Step(t, Success(true))
    decreases StepsLeft(s.tasks[t].pc)
  {
    var e := Step(t, Success(true));
    HealthyStep(s, t, sid, true);
    if s.tasks[t].pc.SendFinal? {
      events := [e];
      RunOne(s, e, []);
      assert [e] + [] == [e];
    } else {
      var rest := HealthySendSucceeds(Apply(s, e), t, sid);
      events := [e] + rest;
      RunOne(s, e, rest);
    }
  }

  // -------------------------------------------------------- a reconnect left alone

  function Phase(stage: Stage): nat {
    match stage
    case CheckOpen => 11
    case Lock => 10
    case RecheckOpen => 9
    case CheckGeneration => 8
    case Connect => 7
    case TakeSnapshot(_) => 6
    case Replay(_, _, _) => 5
    case CheckBeforeInstall(_, _) => 4
    case LockSession(_, _) => 3
    case CheckLocked(_, _) => 2
    case Install(_, _) => 1
    case Bump => 0
  }

  function FramesLeft(stage: Stage): nat {
    if stage.Replay? && stage.next <= |stage.unacked| then |stage.unacked| - stage.next else 0
  }

  /** The replacement under way, once there is one. */
  function Replacing(stage: Stage): Option<SessionId> {
    match stage
    case TakeSnapshot(sid) => Some(sid)
    case Replay(sid, _, _) => Some(sid)
    case CheckBeforeInstall(sid, _) => Some(sid)
    case LockSession(sid, _) => Some(sid)
    case CheckLocked(sid, _) => Some(sid)
    case Install(sid, _) => Some(sid)
    case _ => None
  }

  /** A reconnect for the current generation of an open association, with the locks it needs free or its own. */
  predicate Recovering(s: State, t: TaskId) {
    && t in s.tasks && s.tasks[t].pc.Reconnect?
    && !s.control.closed && s.control.generation == s.tasks[t].pc.gen
    && var stage := s.tasks[t].pc.stage;
    && s.control.reconnectLock == (if Phase(stage) >= 10 then None else Some(t))
    && s.control.sessionLock == (if Phase(stage) >= 3 then None else Some(t))
    && (stage.Replay? ==> stage.next <= |stage.unacked|)
    && (Replacing(stage).Some? ==> Writable(s.net, Replacing(stage).value))
  }

  /** What it leaves behind: a new session, the next generation, and its caller on the way to success. */
  predicate Recovered(s: State, s': State, t: TaskId) {
    && t in s'.tasks && (s'.tasks[t].pc.SendFinal? || s'.tasks[t].pc.RecvLoad?)
    && s'.control.generation == s.control.generation + 1
    && s'.control.reconnectLock.None? && s'.control.sessionLock.None?
  }

  lemma EarlyStep(s: State, t: TaskId)
    requires Recovering(s, t) && Phase(s.tasks[t].pc.stage) >= 6
    ensures var s' := Apply(s, Step(t, Success(true)));
      && Recovering(s', t) && s'.control.generation == s.control.generation
      && Phase(s'.tasks[t].pc.stage) < Phase(s.tasks[t].pc.stage)
  {
  }

  lemma ReplayStep(s: State, t: TaskId)
    requires Recovering(s, t) && s.tasks[t].pc.stage.Replay?
    ensures var s' := Apply(s, Step(t, Success(true))); var stage := s.tasks[t].pc.stage;
      && Recovering(s', t) && s'.control.generation == s.control.generation
      && (|| Phase(s'.tasks[t].pc.stage) < Phase(stage)
          || (s'.tasks[t].pc.stage.Replay? && FramesLeft(s'.tasks[t].pc.stage) < FramesLeft(stage)))
  {
  }

  lemma LateStep(s: State, t: TaskId)
    requires Recovering(s, t) && 1 <= Phase(s.tasks[t].pc.stage) <= 4
    ensures var s' := Apply(s, Step(t, Success(true)));
      && Recovering(s', t) && s'.control.generation == s.control.generation
      && Phase(s'.tasks[t].pc.stage) < Phase(s.tasks[t].pc.stage)
  {
  }

  lemma LastStep(s: State, t: TaskId)
    requires Recovering(s, t) && s.tasks[t].pc.stage.Bump?
    ensures Recovered(s, Apply(s, Step(t, Success(true))), t)
  {
  }

  /** Left alone, with I/O that works, a reconnect installs a session and moves the generation on. */
  lemma {:induction false} LoneReconnectSucceeds(s: State, t: TaskId) returns (events: seq<Event>)
    requires Recovering(s, t)
    ensures Recovered(s, Run(s, events), t)
    decreases Phase(s.tasks[t].pc.stage), FramesLeft(s.tasks[t].pc.stage)
  {
    var e := Step(t, Success(true));
    if s.tasks[t].pc.stage.Bump? {
      LastStep(s, t);
      events := [e];
      RunOne(s, e, []);
      assert [e] + [] == [e];
    } else {
      if s.tasks[t].pc.stage.Replay? {
        ReplayStep(s, t);
      } else if Phase(s.tasks[t].pc.stage) >= 6 {
        EarlyStep(s, t);
      } else {
        LateStep(s, t);
      }
      var rest := LoneReconnectSucceeds(Apply(s, e), t);
      events := [e] + rest;
      RunOne(s, e, rest);
    }
  }

  // ------------------------------------------------------------------ acknowledgement

  lemma AcknowledgeTakes(q: Queue, source: Endpoint, payload: seq<Byte>, i: nat)
    ensures var q' := DoAcknowledge(q, source, payload);
      && (Acknowledges(q.retry, i, source, payload) ==> q'.retry == q.retry[..i] + q.retry[i + 1..])
      && ((forall p :: p in q.retry ==> p.target != source && p.payload != payload) ==> q'.retry == q.retry)
  {
    var j := AckIndex(q.retry, source, payload);
    if j < |q.retry| {
      assert q.retry[j] in q.retry;
      if Acknowledges(q.retry, i, source, payload) {
        AcknowledgedIndexIsUnique(q.retry, i, j, source, payload);
      }
    } else if i < |q.retry| {
      assert q.retry[i] in q.retry;
    }
  }

  /** A receive that succeeds has taken the one datagram its reply acknowledges out of the queue, and no other. */
  lemma ReceiveAcknowledges(s: State, t: TaskId, io: IoOutcome, i: nat)
    requires t in s.tasks && s.tasks[t].pc.RecvAck?
    ensures var source, payload := s.tasks[t].pc.source, s.tasks[t].pc.payload; var s' := Apply(s, Step(t, io));
      && t in s'.tasks && s'.tasks[t].pc == Finished(Ok(()))
      && (Acknowledges(s.queue.retry, i, source, payload) ==>
            s'.queue.retry == s.queue.retry[..i] + s.queue.retry[i + 1..])
      && ((forall p :: p in s.queue.retry ==> p.target != source && p.payload != payload) ==>
            s'.queue.retry == s.queue.retry)
  {
    AckStep(s, t, io);
    AcknowledgeTakes(s.queue, s.tasks[t].pc.source, s.tasks[t].pc.payload, i);
  }

  lemma AckStep(s: State, t: TaskId, io: IoOutcome)
    requires t in s.tasks && s.tasks[t].pc.RecvAck?
    ensures var s' := Apply(s, Step(t, io));
      && t in s'.tasks && s'.tasks[t].pc == Finished(Ok(()))
      && s'.queue == DoAcknowledge(s.queue, s.tasks[t].pc.source, s.tasks[t].pc.payload)
  {
  }

  // ------------------------------------------------------------------ bounded attempts

  /** No send and no receive reconnects more often than the limit. */
  predicate WithinLimit(pc: Pc) {
    match pc
    case SendRetry(_, attempts, _) => attempts <= MAX_UOT_RECONNECT_ATTEMPTS
    case RecvLoad(attempts) => attempts <= MAX_UOT_RECONNECT_ATTEMPTS
    case RecvCheck(_, attempts) => attempts <= MAX_UOT_RECONNECT_ATTEMPTS
    case RecvClone(_, attempts) => attempts <= MAX_UOT_RECONNECT_ATTEMPTS
    case RecvRead(_, attempts, _) => attempts <= MAX_UOT_RECONNECT_ATTEMPTS
    case Reconnect(BySend(attempts), _, _) => 1 <= attempts <= MAX_UOT_RECONNECT_ATTEMPTS
    case Reconnect(ByRecv(attempts), _, _) => attempts < MAX_UOT_RECONNECT_ATTEMPTS
    case _ => true
  }

  lemma LimitMove(s: State, task: Task, e: Event)
    requires WithinLimit(task.pc)
    ensures WithinLimit(Decide(s, task, e).pc)
  {
  }

  lemma {:induction false} AttemptsAreBounded(events: seq<Event>)
    ensures forall t :: t in Run(Init(), events).tasks ==> WithinLimit(Run(Init(), events).tasks[t].pc)
  {
    if events != [] {
      var s, e := Run(Init(), events[..|events| - 1]), events[|events| - 1];
      AttemptsAreBounded(events[..|events| - 1]);
      if !e.Background? && !e.StartSend? && !e.StartRecv? && !e.StartClose? && e.t in s.tasks {
        LimitMove(s, s.tasks[e.t], e);
      }
    }
  }

  lemma SuccessFrom(s: State, task: Task, io: IoOutcome)
    requires task.pc.Reconnect?
    ensures var d := ReconnectDecision(s, task.pc.caller, task.pc.gen, task.pc.stage, io);
      d.pc.SendFinal? || d.pc.RecvLoad? ==>
        || d.control.BumpAndUnlock?
        || (task.pc.stage.CheckGeneration? && s.control.generation != task.pc.gen && d.control.Unlock?)
  {
  }

  lemma ReplacedBy(s: State, t: TaskId, io: IoOutcome)
    requires SeenIsPast(s) && t in s.tasks && s.tasks[t].pc.Reconnect?
    ensures var d := ReconnectDecision(s, s.tasks[t].pc.caller, s.tasks[t].pc.gen, s.tasks[t].pc.stage, io);
      d.pc.SendFinal? || d.pc.RecvLoad? ==> s.tasks[t].pc.gen < DoControl(s.control, d.control, t).generation
  {
    SuccessFrom(s, s.tasks[t], io);
    assert SeenGeneration(s.tasks[t].pc) == Some(s.tasks[t].pc.gen);
  }

  /** A reconnect reports success only when the generation it answers has been replaced. */
  lemma ReconnectSucceedsWhenReplaced(events: seq<Event>, t: TaskId, io: IoOutcome)
    requires var s := Run(Init(), events); t in s.tasks && s.tasks[t].pc.Reconnect?
    ensures var s := Run(Init(), events); var s' := Apply(s, Step(t, io));
      t in s'.tasks && (s'.tasks[t].pc.SendFinal? || s'.tasks[t].pc.RecvLoad? ==>
                          s.tasks[t].pc.gen < s'.control.generation)
  {
    RunSeen(events);
    ReplacedBy(Run(Init(), events), t, io);
  }

  // --------------------------------------------------------- a send that is overtaken

  const RECV: TaskId := 1
  const SEND: TaskId := 2

  /** The receiver fails and takes its snapshot; the sender then queues, fails, and finds itself overtaken. */
  function ReceiverAt(n: nat): Pc {
    match n
    case 1 => RecvLoad(0)
    case 2 => RecvCheck(1, 0)
    case 3 => RecvClone(1, 0)
    case 4 => RecvRead(1, 0, 0)
    case 5 => Reconnect(ByRecv(0), 1, CheckOpen)
    case 6 => Reconnect(ByRecv(0), 1, Lock)
    case 7 => Reconnect(ByRecv(0), 1, RecheckOpen)
    case 8 => Reconnect(ByRecv(0), 1, CheckGeneration)
    case 9 => Reconnect(ByRecv(0), 1, Connect)
    case 10 => Reconnect(ByRecv(0), 1, TakeSnapshot(1))
    case 21 => Reconnect(ByRecv(0), 1, CheckBeforeInstall(1, []))
    case 22 => Reconnect(ByRecv(0), 1, LockSession(1, []))
    case 23 => Reconnect(ByRecv(0), 1, CheckLocked(1, []))
    case 24 => Reconnect(ByRecv(0), 1, Install(1, []))
    case 25 => Reconnect(ByRecv(0), 1, Bump)
    case _ => if n < 21 then Reconnect(ByRecv(0), 1, Replay(1, [], 0)) else RecvLoad(1)
  }

  function SenderAt(n: nat): Pc {
    match n
    case 12 => SendStart
    case 13 => SendPush(1)
    case 14 => SendLoad
    case 15 => SendCheck(1)
    case 16 => SendClone(1)
    case 17 => SendWrite(1, 0)
    case 18 => SendRetry(1, 0, Io)
    case 19 => Reconnect(BySend(1), 1, CheckOpen)
    case 27 => Reconnect(BySend(1), 1, RecheckOpen)
    case 28 => Reconnect(BySend(1), 1, CheckGeneration)
    case 29 => SendFinal
    case 30 => Sent
    case _ => Reconnect(BySend(1), 1, Lock)
  }

  function ControlAt(n: nat): Control {
    Control(false, false, Some(if n < 25 then 0 else 1),
            if 23 <= n < 26 then Some(RECV) else None,
            if 7 <= n < 26 then Some(RECV) else if 27 <= n < 29 then Some(SEND) else None,
            if n < 26 then 1 else 2, if n < 25 then [] else [Replacement(1, 1, [])], false)
  }

  function QueueAt(n: nat): Queue {
    Queue(if n < 13 then 1 else 2,
          if n < 14 then [] else [Pending(1, NO_FRAME.target, NO_FRAME.payload)],
          if n < 13 then map[] else map[1 := SEND], map[], false)
  }

  function NetAt(n: nat): Net {
    var idle := Stream([], [], false);
    if n < 10 then Net(map[0 := idle], 1) else Net(map[0 := idle, 1 := idle], 2)
  }

  function TasksAt(n: nat): map<TaskId, Task> {
    if n == 0 then map[]
    else if n < 12 then map[RECV := Task(NO_FRAME, None, ReceiverAt(n))]
    else map[RECV := Task(NO_FRAME, None, ReceiverAt(n)),
             SEND := Task(NO_FRAME, if n < 13 then None else Some(1), SenderAt(n))]
  }

  function StateAt(n: nat): State {
    State(ControlAt(n), QueueAt(n), NetAt(n), TasksAt(n))
  }

  function EventAt(n: nat): Event {
    if n == 0 then StartRecv(RECV)
    else if n == 11 then StartSend(SEND, NO_FRAME)
    else if n == 4 then Step(RECV, Failure(Io, false, 0))
    else if n == 17 then Step(SEND, Failure(Io, false, 0))
    else if n < 11 || 20 <= n < 26 then Step(RECV, Success(false))
    else Step(SEND, Success(false))
  }

  lemma ReceiverStarts(n: nat)
    requires n < 3
    ensures Apply(StateAt(n), EventAt(n)) == StateAt(n + 1)
  {
  }

  lemma ReceiverFails(n: nat)
    requires 3 <= n < 6
    ensures Apply(StateAt(n), EventAt(n)) == StateAt(n + 1)
  {
  }

  lemma ReceiverConnects(n: nat)
    requires 6 <= n < 11
    ensures Apply(StateAt(n), EventAt(n)) == StateAt(n + 1)
  {
  }

  lemma SenderStarts(n: nat)
    requires 11 <= n < 13
    ensures Apply(StateAt(n), EventAt(n)) == StateAt(n + 1)
  {
  }

  lemma SenderQueues(n: nat)
    requires 13 <= n < 16
    ensures Apply(StateAt(n), EventAt(n)) == StateAt(n + 1)
  {
  }

  lemma SenderWrites()
    ensures Apply(StateAt(16), EventAt(16)) == StateAt(17)
  {
  }

  lemma SenderFails(n: nat)
    requires 17 <= n < 20
    ensures Apply(StateAt(n), EventAt(n)) == StateAt(n + 1)
  {
  }

  lemma ReceiverReplays()
    ensures Apply(StateAt(20), EventAt(20)) == StateAt(21)
  {
    IdleFlush();
  }

  lemma ReceiverLocks(n: nat)
    requires 21 <= n < 23
    ensures Apply(StateAt(n), EventAt(n)) == StateAt(n + 1)
  {
  }

  lemma IdleFlush()
    ensures DoNet(NetAt(20), FlushStream(1)) == NetAt(21)
  {
    assert Flushed(Stream([], [], false)) == Stream([], [], false);
  }

  lemma ReceiverInstalls()
    ensures Apply(StateAt(24), EventAt(24)) == StateAt(25)
  {
    var r := Replacement(1, 1, []);
    assert [] + [r] == [r];
    assert Apply(StateAt(24), EventAt(24)).tasks == TasksAt(25);
  }

  lemma ReceiverFindsItOpen()
    ensures Apply(StateAt(23), EventAt(23)) == StateAt(24)
  {
    CheckDecides();
    CheckMoves();
  }

  lemma CheckDecides()
    ensures Decide(StateAt(23), TasksAt(23)[RECV], EventAt(23)) == Go(ReceiverAt(24))
  {
  }

  lemma CheckMoves()
    ensures TasksAt(23)[RECV := TasksAt(23)[RECV].(pc := ReceiverAt(24))] == TasksAt(24)
  {
  }

  lemma ReceiverReturns()
    ensures Apply(StateAt(25), EventAt(25)) == StateAt(26)
  {
    ReceiverDecides();
    ReceiverUnlocks();
  }

  lemma ReceiverDecides()
    ensures Decide(StateAt(25), TasksAt(25)[RECV], EventAt(25)) ==
              Decision(BumpAndUnlock, KeepQueue, KeepNet, RecvLoad(1))
  {
  }

  lemma ReceiverUnlocks()
    ensures DoControl(ControlAt(25), BumpAndUnlock, RECV) == ControlAt(26)
    ensures TasksAt(25)[RECV := TasksAt(25)[RECV].(pc := RecvLoad(1))] == TasksAt(26)
  {
  }

  lemma SenderIsOvertaken(n: nat)
    requires 26 <= n < 30
    ensures Apply(StateAt(n), EventAt(n)) == StateAt(n + 1)
  {
  }

  function EventsUpTo(n: nat): seq<Event> {
    if n == 0 then [] else EventsUpTo(n - 1) + [EventAt(n - 1)]
  }

  lemma Scene(n: nat)
    requires n < 30
    ensures Apply(StateAt(n), EventAt(n)) == StateAt(n + 1)
  {
    if n < 3 {
      ReceiverStarts(n);
    } else if n < 6 {
      ReceiverFails(n);
    } else if n < 11 {
      ReceiverConnects(n);
    } else if n < 13 {
      SenderStarts(n);
    } else if n < 16 {
      SenderQueues(n);
    } else if n == 16 {
      SenderWrites();
    } else if n < 20 {
      SenderFails(n);
    } else if n == 20 {
      ReceiverReplays();
    } else if n < 23 {
      ReceiverLocks(n);
    } else if n == 23 {
      ReceiverFindsItOpen();
    } else if n == 24 {
      ReceiverInstalls();
    } else if n == 25 {
      ReceiverReturns();
    } else {
      SenderIsOvertaken(n);
    }
  }

  lemma {:induction false} ScriptRuns(n: nat)
    requires n <= 30
    ensures Run(Init(), EventsUpTo(n)) == StateAt(n)
  {
    if n > 0 {
      ScriptRuns(n - 1);
      RunStep(EventsUpTo(n - 1), EventAt(n - 1));
      Scene(n - 1);
    }
  }

  /** So a send can succeed with its frame on no session at all: only the queue has it, for the next replay. */
  lemma SentMayBeOnNoSession() returns (events: seq<Event>, t: TaskId)
    ensures var s := Run(Init(), events);
      && t in s.tasks && s.tasks[t].pc.Sent? && !Gone(s.queue, s.tasks[t])
      && (forall sid :: sid in s.net.streams ==> Content(s.net.streams[sid]) == [])
  {
    events, t := EventsUpTo(30), SEND;
    ScriptRuns(30);
    LastScene();
  }

  lemma LastScene()
    ensures var s := StateAt(30);
      && SEND in s.tasks && s.tasks[SEND].pc.Sent? && !Gone(s.queue, s.tasks[SEND])
      && (forall sid :: sid in s.net.streams ==> Content(s.net.streams[sid]) == [])
  {
  }
}
