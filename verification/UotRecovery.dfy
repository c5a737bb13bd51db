/**
 * UDP-over-TCP recovery as a step system. One step is one critical section,
 * one atomic access or one I/O completion of one task; steps of any number of
 * senders, receivers and closers interleave freely.
 */
module UotRecovery {
  import opened Common
  import opened RetryQueues

  type TaskId = nat
  type SessionId = nat

  const MAX_UOT_RECONNECT_ATTEMPTS: nat := 3

  /** The session a datagram is opened with. */
  const FIRST_SESSION: SessionId := 0

  /** What one connection has carried: frames on the wire, frames still coalescing, and whether it failed. */
  datatype Stream = Stream(wire: seq<Frame>, pending: seq<Frame>, broken: bool)

  /** Who asked for a reconnect, and how often it has tried. */
  datatype Caller = BySend(attempts: nat) | ByRecv(attempts: nat)

  /** The next thing a running reconnect does. */
  datatype Stage =
    | CheckOpen
    | Lock
    | RecheckOpen
    | CheckGeneration
    | Connect
    | TakeSnapshot(sid: SessionId)
    | Replay(sid: SessionId, unacked: seq<Frame>, next: nat)
    | CheckBeforeInstall(sid: SessionId, unacked: seq<Frame>)
    | LockSession(sid: SessionId, unacked: seq<Frame>)
    | CheckLocked(sid: SessionId, unacked: seq<Frame>)
    | Install(sid: SessionId, unacked: seq<Frame>)
    | Bump

  /** The next thing a task does. */
  datatype Pc =
    | SendStart
    | SendPush(id: nat)
    | SendLoad
    | SendCheck(gen: nat)
    | SendClone(gen: nat)
    | SendWrite(gen: nat, sid: SessionId)
    | SendRetry(gen: nat, attempts: nat, error: ErrorKind)
    | SendFinal
    | SendDrop(error: ErrorKind)
    | RecvLoad(attempts: nat)
    | RecvCheck(gen: nat, attempts: nat)
    | RecvClone(gen: nat, attempts: nat)
    | RecvRead(gen: nat, attempts: nat, sid: SessionId)
    | RecvFinal(source: Endpoint, payload: seq<Byte>, fits: bool)
    | RecvAck(source: Endpoint, payload: seq<Byte>)
    | Reconnect(caller: Caller, gen: nat, stage: Stage)
    | CloseStore
    | CloseSignal
    | CloseTake
    | CloseShutdown
    | CloseClear(result: Result<(), ErrorKind>)
    | Sent
    | Finished(outcome: Result<(), ErrorKind>)
    | Cancelled

  /** A task; a sender carries its datagram and, once allocated, its retry id. */
  datatype Task = Task(frame: Frame, id: Option<nat>, pc: Pc)

  /** Why a datagram left the retry queue. */
  datatype Reason = Acked | Cleared | Dropped

  datatype Replacement = Replacement(failed: nat, sid: SessionId, unacked: seq<Frame>)

  /**
   * The control fields of `ChainDatagram`, with two pieces of history: the
   * replacements installed so far, and whether a close has taken the session.
   */
  datatype Control = Control(
    closed: bool,
    signalled: bool,
    session: Option<SessionId>,
    sessionLock: Option<TaskId>,
    reconnectLock: Option<TaskId>,
    generation: nat,
    installs: seq<Replacement>,
    taken: bool)

  /** The retry queue, with its history: who owns each id, why ids left, whether a close cleared it. */
  datatype Queue = Queue(
    nextRetryId: nat,
    retry: seq<Pending>,
    owners: map<nat, TaskId>,
    removed: map<nat, Reason>,
    cleared: bool)

  /** Every connection opened so far. */
  datatype Net = Net(streams: map<SessionId, Stream>, nextSession: SessionId)

  datatype State = State(control: Control, queue: Queue, net: Net, tasks: map<TaskId, Task>)

  /** How the I/O inside one step went. */
  datatype IoOutcome =
    | Success(flushed: bool)
    | Failure(kind: ErrorKind, breaks: bool, accepted: nat)
    | Received(source: Endpoint, payload: seq<Byte>, fits: bool)

  datatype Event =
    | StartSend(t: TaskId, frame: Frame)
    | StartRecv(t: TaskId)
    | StartClose(t: TaskId)
    | Step(t: TaskId, io: IoOutcome)
    | Interrupt(t: TaskId)
    | Cancel(t: TaskId)
    | Background(sid: SessionId, fails: bool, accepted: nat)

  const NO_FRAME := Frame(Address(Udp, 0, 0), [])

  function Init(): State {
    State(Control(false, false, Some(FIRST_SESSION), None, None, 1, [], false),
          Queue(1, [], map[], map[], false),
          Net(map[FIRST_SESSION := Stream([], [], false)], 1),
          map[])
  }

  // -------------------------------------------------------------- effects

  /** What a step does to the control fields. */
  datatype ControlOp =
    | KeepControl
    | StoreClosed
    | SendSignal
    | TakeSession
    | LockReconnect
    | LockSessionSlot
    | InstallSession(replacement: Replacement)
    | Unlock
    | BumpAndUnlock

  function DoControl(c: Control, op: ControlOp, t: TaskId): Control {
    match op
    case KeepControl => c
    case StoreClosed => c.(closed := true)
    case SendSignal => c.(signalled := true)
    case TakeSession => c.(session := None, taken := true)
    case LockReconnect => c.(reconnectLock := Some(t))
    case LockSessionSlot => c.(sessionLock := Some(t))
    case InstallSession(r) => c.(session := Some(r.sid), installs := c.installs + [r])
    case Unlock => Release(c, t)
    case BumpAndUnlock => Release(c, t).(generation := c.generation + 1)
  }

  /** Dropping a future drops the guards it holds. */
  function Release(c: Control, t: TaskId): Control {
    c.(reconnectLock := if c.reconnectLock == Some(t) then None else c.reconnectLock,
       sessionLock := if c.sessionLock == Some(t) then None else c.sessionLock)
  }

  /** What a step does to the retry queue. */
  datatype QueueOp =
    | KeepQueue
    | AllocateId
    | Push(entry: Pending)
    | DropRetry(id: nat)
    | AcknowledgeReply(source: Endpoint, payload: seq<Byte>)
    | ClearRetry

  function Ids(frames: seq<Pending>): set<nat> {
    set p | p in frames :: p.id
  }

  function DoQueue(q: Queue, op: QueueOp, t: TaskId): Queue {
    match op
    case KeepQueue => q
    case AllocateId => q.(nextRetryId := q.nextRetryId + 1, owners := q.owners[q.nextRetryId := t])
    case Push(entry) => q.(retry := q.retry + [entry])
    case DropRetry(id) => DoDrop(q, id)
    case AcknowledgeReply(source, payload) => DoAcknowledge(q, source, payload)
    case ClearRetry => q.(retry := [], cleared := true, removed := q.removed + (map id | id in Ids(q.retry) :: Cleared))
  }

  function DoDrop(q: Queue, id: nat): Queue {
    if id in Ids(q.retry) then q.(retry := RemoveId(q.retry, id), removed := q.removed[id := Dropped]) else q
  }

  function DoAcknowledge(q: Queue, source: Endpoint, payload: seq<Byte>): Queue {
    var i := AckIndex(q.retry, source, payload);
    if i < |q.retry|
    then q.(retry := RemoveAt(q.retry, i), removed := q.removed[q.retry[i].id := Acked])
    else q
  }

  /** What a step does to the connections. */
  datatype NetOp =
    | KeepNet
    | OpenStream
    | WriteFrame(sid: SessionId, frame: Frame, flushed: bool)
    | FlushStream(sid: SessionId)
    | BreakStream(sid: SessionId, frames: seq<Frame>, accepted: nat)

  predicate Writable(n: Net, sid: SessionId) {
    sid in n.streams && !n.streams[sid].broken
  }

  function Flushed(stream: Stream): Stream {
    Stream(stream.wire + stream.pending, [], stream.broken)
  }

  function Append(stream: Stream, frame: Frame, flushed: bool): Stream {
    var buffered := stream.(pending := stream.pending + [frame]);
    if flushed then Flushed(buffered) else buffered
  }

  /** A failed write: some whole frames got out before the error, and none will after it. */
  function Torn(stream: Stream, frames: seq<Frame>, accepted: nat): Stream {
    var left := stream.pending + frames;
    var k := if accepted < |left| then accepted else |left|;
    Stream(stream.wire + left[..k], left[k..], true)
  }

  function DoNet(n: Net, op: NetOp): Net {
    match op
    case KeepNet => n
    case OpenStream => Net(n.streams[n.nextSession := Stream([], [], false)], n.nextSession + 1)
    case WriteFrame(sid, frame, flushed) =>
      if Writable(n, sid) then n.(streams := n.streams[sid := Append(n.streams[sid], frame, flushed)]) else n
    case FlushStream(sid) =>
      if Writable(n, sid) then n.(streams := n.streams[sid := Flushed(n.streams[sid])]) else n
    case BreakStream(sid, frames, accepted) =>
      if Writable(n, sid) then n.(streams := n.streams[sid := Torn(n.streams[sid], frames, accepted)]) else n
  }

  // ------------------------------------------------------------ decisions

  /** What one step does, and where it leaves its task. */
  datatype Decision = Decision(control: ControlOp, queue: QueueOp, net: NetOp, pc: Pc)

  function Go(pc: Pc): Decision {
    Decision(KeepControl, KeepQueue, KeepNet, pc)
  }

  predicate Recoverable(kind: ErrorKind) {
    kind.Io? || kind.Closed? || kind.Protocol? || kind.Timeout?
  }

  /** A failed `send_once`: recoverable errors go to the reconnect loop. */
  function SendFailed(gen: nat, kind: ErrorKind): Pc {
    if Recoverable(kind) then SendRetry(gen, 0, kind) else SendDrop(kind)
  }

  function RecvFailed(gen: nat, attempts: nat, kind: ErrorKind): Pc {
    if Recoverable(kind) && attempts < MAX_UOT_RECONNECT_ATTEMPTS
    then Reconnect(ByRecv(attempts), gen, CheckOpen)
    else Finished(Err(kind))
  }

  function Damage(sid: SessionId, frames: seq<Frame>, breaks: bool, accepted: nat): NetOp {
    if breaks then BreakStream(sid, frames, accepted) else KeepNet
  }

  /** A step that is blocked, or whose I/O has not completed, leaves everything as it is. */
  function SendDecision(s: State, task: Task, io: IoOutcome): Decision {
    match task.pc
    case SendStart => Go(SendPush(s.queue.nextRetryId)).(queue := AllocateId)
    case SendPush(id) =>
      var entry := Pending(id, task.frame.target, task.frame.payload);
      if Fits(s.queue.retry, entry) then Go(SendLoad).(queue := Push(entry)) else Go(Finished(Err(Timeout)))
    case SendLoad => Go(SendCheck(s.control.generation))
    case SendCheck(gen) => Go(if s.control.closed then SendFailed(gen, Closed) else SendClone(gen))
    case SendClone(gen) =>
      if s.control.sessionLock.Some? then Go(task.pc)
      else if s.control.session.None? then Go(SendFailed(gen, Closed))
      else Go(SendWrite(gen, s.control.session.value))
    case SendWrite(gen, sid) =>
      if io.Failure? then Go(SendFailed(gen, io.kind)).(net := Damage(sid, [task.frame], io.breaks, io.accepted))
      else if io.Success? && Writable(s.net, sid) then Go(SendFinal).(net := WriteFrame(sid, task.frame, io.flushed))
      else Go(task.pc)
    case SendRetry(gen, attempts, error) =>
      Go(if attempts >= MAX_UOT_RECONNECT_ATTEMPTS then Finished(Err(error))
         else Reconnect(BySend(attempts + 1), gen, CheckOpen))
    case SendFinal => Go(if s.control.closed then SendDrop(Closed) else Sent)
    case SendDrop(error) =>
      Go(Finished(Err(error))).(queue := if task.id.Some? then DropRetry(task.id.value) else KeepQueue)
    case _ => Go(task.pc)
  }

  function RecvDecision(s: State, task: Task, io: IoOutcome): Decision {
    match task.pc
    case RecvLoad(attempts) => Go(RecvCheck(s.control.generation, attempts))
    case RecvCheck(gen, attempts) =>
      Go(if s.control.closed then RecvFailed(gen, attempts, Closed) else RecvClone(gen, attempts))
    case RecvClone(gen, attempts) =>
      if s.control.sessionLock.Some? then Go(task.pc)
      else if s.control.session.None? then Go(RecvFailed(gen, attempts, Closed))
      else Go(RecvRead(gen, attempts, s.control.session.value))
    case RecvRead(gen, attempts, sid) =>
      (match io
       case Received(source, payload, fits) => Go(RecvFinal(source, payload, fits))
       case Failure(kind, _, _) => Go(RecvFailed(gen, attempts, kind))
       case Success(_) => Go(task.pc))
    case RecvFinal(source, payload, fits) =>
      Go(if s.control.closed then Finished(Err(Closed))
         else if !fits then Finished(Err(InvalidInput))
         else RecvAck(source, payload))
    case RecvAck(source, payload) => Go(Finished(Ok(()))).(queue := AcknowledgeReply(source, payload))
    case _ => Go(task.pc)
  }

  /** A reconnect returns to its caller, and its guards are dropped. */
  function Return(caller: Caller, gen: nat, r: Result<(), ErrorKind>): Decision {
    Decision(Unlock, KeepQueue, KeepNet,
             match caller
             case BySend(attempts) =>
               (match r
                case Ok(_) => SendFinal
                case Err(Closed) => SendDrop(Closed)
                case Err(error) => SendRetry(gen, attempts, error))
             case ByRecv(attempts) =>
               (match r
                case Ok(_) => RecvLoad(attempts + 1)
                case Err(error) => Finished(Err(error))))
  }

  /** Shutting an unused replacement down reports the closed session unless the shutdown itself fails. */
  function ShutdownError(io: IoOutcome): ErrorKind {
    if io.Failure? then io.kind else Closed
  }

  /** One step of the reconnect that `caller` runs after generation `gen` failed. */
  function ReconnectDecision(s: State, caller: Caller, gen: nat, stage: Stage, io: IoOutcome): Decision {
    match stage
    case CheckOpen =>
      if s.control.closed then Return(caller, gen, Err(Closed)) else Go(Reconnect(caller, gen, Lock))
    case Lock =>
      if s.control.reconnectLock.Some? then Go(Reconnect(caller, gen, Lock))
      else Go(Reconnect(caller, gen, RecheckOpen)).(control := LockReconnect)
    case RecheckOpen =>
      if s.control.closed then Return(caller, gen, Err(Closed)) else Go(Reconnect(caller, gen, CheckGeneration))
    case CheckGeneration =>
      if s.control.generation != gen then Return(caller, gen, Ok(())) else Go(Reconnect(caller, gen, Connect))
    case Connect =>
      (match io
       case Failure(kind, _, _) => Return(caller, gen, Err(kind))
       case Success(_) => Go(Reconnect(caller, gen, TakeSnapshot(s.net.nextSession))).(net := OpenStream)
       case Received(_, _, _) => Go(Reconnect(caller, gen, stage)))
    case TakeSnapshot(sid) => Go(Reconnect(caller, gen, Replay(sid, Snapshot(s.queue.retry), 0)))
    case Replay(sid, unacked, next) =>
      if io.Failure? then
        var frames := if next < |unacked| then [unacked[next]] else [];
        Return(caller, gen, Err(io.kind)).(net := Damage(sid, frames, io.breaks, io.accepted))
      else if !io.Success? || !Writable(s.net, sid) then Go(Reconnect(caller, gen, stage))
      else if next < |unacked| then
        Go(Reconnect(caller, gen, Replay(sid, unacked, next + 1))).(net := WriteFrame(sid, unacked[next], io.flushed))
      else Go(Reconnect(caller, gen, CheckBeforeInstall(sid, unacked))).(net := FlushStream(sid))
    case CheckBeforeInstall(sid, unacked) =>
      if s.control.closed then Return(caller, gen, Err(ShutdownError(io)))
      else Go(Reconnect(caller, gen, LockSession(sid, unacked)))
    case LockSession(sid, unacked) =>
      if s.control.sessionLock.Some? then Go(Reconnect(caller, gen, stage))
      else Go(Reconnect(caller, gen, CheckLocked(sid, unacked))).(control := LockSessionSlot)
    case CheckLocked(sid, unacked) =>
      if s.control.closed then Return(caller, gen, Err(ShutdownError(io)))
      else Go(Reconnect(caller, gen, Install(sid, unacked)))
    case Install(sid, unacked) =>
      Go(Reconnect(caller, gen, Bump)).(control := InstallSession(Replacement(gen, sid, unacked)))
    case Bump => Return(caller, gen, Ok(())).(control := BumpAndUnlock)
  }

  function CloseDecision(s: State, pc: Pc, io: IoOutcome): Decision {
    match pc
    case CloseStore => Go(CloseSignal).(control := StoreClosed)
    case CloseSignal => Go(CloseTake).(control := SendSignal)
    case CloseTake =>
      if s.control.sessionLock.Some? then Go(pc)
      else Go(if s.control.session.Some? then CloseShutdown else CloseClear(Ok(()))).(control := TakeSession)
    case CloseShutdown => Go(CloseClear(if io.Failure? then Err(io.kind) else Ok(())))
    case CloseClear(result) => Go(Finished(result)).(queue := ClearRetry)
    case _ => Go(pc)
  }

  /** Between the locked check and the generation bump there is no await point. */
  predicate Uninterruptible(pc: Pc) {
    pc.Reconnect? && (pc.stage.Install? || pc.stage.Bump?)
  }

  /** The `select!` points: a close notice aborts the send, receive or reconnect in progress. */
  function InterruptDecision(s: State, pc: Pc): Decision {
    if !s.control.signalled || Uninterruptible(pc) then Go(pc)
    else
      match pc
      case Reconnect(caller, gen, _) => Return(caller, gen, Err(Closed))
      case RecvCheck(gen, attempts) => Go(RecvFailed(gen, attempts, Closed))
      case RecvClone(gen, attempts) => Go(RecvFailed(gen, attempts, Closed))
      case RecvRead(gen, attempts, _) => Go(RecvFailed(gen, attempts, Closed))
      case SendCheck(gen) => Go(SendFailed(gen, Closed))
      case SendClone(gen) => Go(SendFailed(gen, Closed))
      case SendWrite(gen, _) => Go(SendFailed(gen, Closed))
      case _ => Go(pc)
  }

  /** A future may be dropped at any await point; its guards go with it. */
  function CancelDecision(pc: Pc): Decision {
    if pc.Sent? || pc.Finished? || Uninterruptible(pc) then Go(pc)
    else Go(Cancelled).(control := Unlock)
  }

  predicate IsRecv(pc: Pc) {
    pc.RecvLoad? || pc.RecvCheck? || pc.RecvClone? || pc.RecvRead? || pc.RecvFinal? || pc.RecvAck?
  }

  predicate IsClose(pc: Pc) {
    pc.CloseStore? || pc.CloseSignal? || pc.CloseTake? || pc.CloseShutdown? || pc.CloseClear?
  }

  function Decide(s: State, task: Task, e: Event): Decision {
    match e
    case Step(_, io) =>
      if task.pc.Reconnect? then ReconnectDecision(s, task.pc.caller, task.pc.gen, task.pc.stage, io)
      else if IsRecv(task.pc) then RecvDecision(s, task, io)
      else if IsClose(task.pc) then CloseDecision(s, task.pc, io)
      else SendDecision(s, task, io)
    case Interrupt(_) => InterruptDecision(s, task.pc)
    case Cancel(_) => CancelDecision(task.pc)
    case _ => Go(task.pc)
  }

  // ----------------------------------------------------------------- runs

  function After(task: Task, q: Queue, d: Decision): Task {
    task.(pc := d.pc, id := if d.queue.AllocateId? then Some(q.nextRetryId) else task.id)
  }

  function Perform(s: State, t: TaskId, task: Task, d: Decision): State {
    State(DoControl(s.control, d.control, t), DoQueue(s.queue, d.queue, t), DoNet(s.net, d.net),
          s.tasks[t := After(task, s.queue, d)])
  }

  /** The first task of each kind of event. */
  function Fresh(e: Event): Task {
    match e
    case StartSend(_, frame) => Task(frame, None, SendStart)
    case StartClose(_) => Task(NO_FRAME, None, CloseStore)
    case _ => Task(NO_FRAME, None, RecvLoad(0))
  }

  /** The flush loop of a session. */
  function BackgroundOp(sid: SessionId, fails: bool, accepted: nat): NetOp {
    if fails then BreakStream(sid, [], accepted) else FlushStream(sid)
  }

  /** Starting a task id twice, or moving one that never started, is a no-op. */
  function Apply(s: State, e: Event): State {
    if e.Background? then s.(net := DoNet(s.net, BackgroundOp(e.sid, e.fails, e.accepted)))
    else if e.StartSend? || e.StartRecv? || e.StartClose? then
      if e.t in s.tasks then s else s.(tasks := s.tasks[e.t := Fresh(e)])
    else if e.t in s.tasks then Perform(s, e.t, s.tasks[e.t], Decide(s, s.tasks[e.t], e))
    else s
  }

  function Run(s: State, events: seq<Event>): State {
    if events == [] then s else Apply(Run(s, events[..|events| - 1]), events[|events| - 1])
  }
}
