/**
 * The asynchronous resolver as a step system: one owner per canonical
 * question queries upstream, followers wait on its flight, any task may be
 * cancelled where it awaits, and stale hits start background refreshes.
 */
module Singleflight {
  import opened Common
  import opened DnsMessages
  import opened DnsCaches
  import opened LruMaps

  type TaskId = nat
  type FlightId = nat

  datatype Outcome = Pending | Completed(result: Result<Packet, ErrorKind>) | Abandoned

  /**
   * One flight. `notified` counts the `notify_waiters` calls: a waiter that
   * registered when the count was `seen` is awake once the count exceeds it.
   * `key` and `owner` are history.
   */
  datatype Flight = Flight(key: RawKey, owner: TaskId, outcome: Outcome, notified: nat)

  datatype Table = Table(inFlight: map<RawKey, FlightId>, flights: map<FlightId, Flight>, next: FlightId)

  datatype Pc =
    | Start
    | Bypass
    | CheckCache(key: RawKey)
    | StartRefresh(key: RawKey, served: Packet)
    | Begin(key: RawKey)
    | OwnerQuery(key: RawKey, f: FlightId)
    | OwnerStore(key: RawKey, f: FlightId, response: Packet)
    | OwnerSet(key: RawKey, f: FlightId, outcome: Outcome)
    | OwnerNotify(key: RawKey, f: FlightId, outcome: Outcome)
    | OwnerRemove(key: RawKey, f: FlightId, outcome: Outcome)
    | WaitRegister(key: RawKey, f: FlightId)
    | WaitRead(key: RawKey, f: FlightId, seen: nat)
    | WaitPark(key: RawKey, f: FlightId, seen: nat)
    | RefreshQuery(key: RawKey)
    | RefreshStore(key: RawKey, response: Packet)
    | RefreshEnd(key: RawKey)
    | Replied(reply: Result<Packet, ErrorKind>)
    | Gone

  /** A task, the request it works on, and whether it accepts stale answers. */
  datatype Task = Task(packet: Packet, allowStale: bool, pc: Pc)

  /** `refreshing` maps each marked key to the task that holds the mark. */
  datatype State = State(
    table: Table,
    refreshing: map<RawKey, TaskId>,
    cache: Option<Cache>,
    capacity: nat,
    tasks: map<TaskId, Task>)

  datatype Event =
    | StartQuery(t: TaskId, packet: Packet, allowStale: bool)
    | Step(t: TaskId, upstream: Option<Result<Packet, ErrorKind>>, now: Time, spawn: TaskId, newId: nat)
    | Cancel(t: TaskId)

  function Init(cached: bool, capacity: nat): State {
    State(Table(map[], map[], 0), map[], if cached then Some(Cache([], [])) else None, capacity, map[])
  }

  // -------------------------------------------------------------- effects

  datatype TableOp =
    | KeepTable
    | OpenFlight(key: RawKey)
    | SetOutcome(f: FlightId, outcome: Outcome)
    | NotifyWaiters(f: FlightId)
    | RemoveFlight(key: RawKey, f: FlightId)

  function DoTable(tb: Table, op: TableOp, t: TaskId): Table {
    match op
    case KeepTable => tb
    case OpenFlight(key) =>
      Table(tb.inFlight[key := tb.next], tb.flights[tb.next := Flight(key, t, Pending, 0)], tb.next + 1)
    case SetOutcome(f, outcome) =>
      if f in tb.flights then tb.(flights := tb.flights[f := tb.flights[f].(outcome := outcome)]) else tb
    case NotifyWaiters(f) =>
      if f !in tb.flights then tb
      else tb.(flights := tb.flights[f := tb.flights[f].(notified := tb.flights[f].notified + 1)])
    case RemoveFlight(key, f) =>
      if key in tb.inFlight && tb.inFlight[key] == f then tb.(inFlight := tb.inFlight - {key}) else tb
  }

  datatype CacheOp =
    | KeepCache
    | ReadCache(key: RawKey, allowStale: bool, now: Time)
    | WriteCache(key: RawKey, packet: Packet, now: Time)

  function DoCache(c: Option<Cache>, capacity: nat, op: CacheOp): Option<Cache> {
    match c
    case None => None
    case Some(cache) =>
      match op
      case KeepCache => c
      case ReadCache(key, allowStale, now) => Some(CacheStep(cache, capacity, Get(key, allowStale, now)))
      case WriteCache(key, packet, now) => Some(CacheStep(cache, capacity, Insert(key, packet, now)))
  }

  datatype RefreshOp =
    | KeepMarks
    | Mark(key: RawKey, spawn: TaskId, task: Task)
    | Unmark(key: RawKey)

  function DoMarks(marks: map<RawKey, TaskId>, op: RefreshOp): map<RawKey, TaskId> {
    match op
    case KeepMarks => marks
    case Mark(key, spawn, _) => marks[key := spawn]
    case Unmark(key) => marks - {key}
  }

  // ------------------------------------------------------------ decisions

  datatype Decision = Decision(table: TableOp, cache: CacheOp, marks: RefreshOp, pc: Pc)

  function Go(pc: Pc): Decision {
    Decision(KeepTable, KeepCache, KeepMarks, pc)
  }

  /** Rebuild a shared result for one caller. */
  function ReplyTo(packet: Packet, result: Result<Packet, ErrorKind>): Result<Packet, ErrorKind> {
    match result
    case Ok(response) => Rewrite(response, packet)
    case Err(e) => Err(e)
  }

  function CheckDecision(s: State, task: Task, key: RawKey, now: Time): Decision {
    var read := Go(Begin(key)).(cache := ReadCache(key, task.allowStale, now));
    match if s.cache.Some? then Serve(s.cache.value.items, key, task.allowStale, now) else None
    case None => read
    case Some((served, stale)) =>
      if stale then read.(pc := StartRefresh(key, Decodes(served)))
      else read.(pc := Replied(Rewrite(Decodes(served), task.packet)))
  }

  /** `start_refresh`: at most one background refresh per key. */
  function RefreshDecision(s: State, task: Task, key: RawKey, served: Packet, spawn: TaskId, newId: nat): Decision {
    var reply := Go(Replied(Rewrite(served, task.packet)));
    if key in s.refreshing || task.packet.Malformed? then reply
    else if spawn in s.tasks then Go(task.pc)
    else
      var m := task.packet.message;
      var request := Decodes(m.(metadata := m.metadata.(id := newId)));
      reply.(marks := Mark(key, spawn, Task(request, false, RefreshQuery(key))))
  }

  /** The owner asks upstream, then validates and caches what it gets. */
  function QueryDecision(s: State, task: Task, pc: Pc, upstream: Option<Result<Packet, ErrorKind>>, now: Time)
    : Decision
  {
    match pc
    case OwnerQuery(key, f) =>
      (match upstream
       case None => Go(pc)
       case Some(Err(e)) => Go(OwnerSet(key, f, Completed(Err(e))))
       case Some(Ok(response)) =>
         if !Validates(task.packet, response) then Go(OwnerSet(key, f, Completed(Err(Protocol))))
         else if s.cache.Some? then Go(OwnerStore(key, f, response))
         else Go(OwnerSet(key, f, Completed(Ok(response)))))
    case OwnerStore(key, f, response) =>
      Go(OwnerSet(key, f, Completed(Ok(response)))).(cache := WriteCache(key, response, now))
    case _ => Go(pc)
  }

  /** The cleanup guard: store the outcome, wake the waiters, deregister, and reply unless dropped. */
  function SettleDecision(packet: Packet, pc: Pc): Decision {
    match pc
    case OwnerSet(key, f, outcome) => Go(OwnerNotify(key, f, outcome)).(table := SetOutcome(f, outcome))
    case OwnerNotify(key, f, outcome) => Go(OwnerRemove(key, f, outcome)).(table := NotifyWaiters(f))
    case OwnerRemove(key, f, outcome) =>
      Go(if outcome.Completed? then Replied(ReplyTo(packet, outcome.result)) else Gone).(table := RemoveFlight(key, f))
    case _ => Go(pc)
  }

  function WaitDecision(s: State, task: Task, pc: Pc): Decision {
    match pc
    case WaitRegister(key, f) =>
      if f in s.table.flights then Go(WaitRead(key, f, s.table.flights[f].notified)) else Go(pc)
    case WaitRead(key, f, seen) =>
      if f !in s.table.flights then Go(pc)
      else
        (match s.table.flights[f].outcome
         case Completed(result) => Go(Replied(ReplyTo(task.packet, result)))
         case Abandoned => Go(CheckCache(key))
         case Pending => Go(WaitPark(key, f, seen)))
    case WaitPark(key, f, seen) =>
      if f in s.table.flights && s.table.flights[f].notified > seen then Go(WaitRegister(key, f)) else Go(pc)
    case _ => Go(pc)
  }

  /** A request arrives, bypasses the machinery, or opens or joins a flight. */
  function EntryDecision(s: State, task: Task, pc: Pc, upstream: Option<Result<Packet, ErrorKind>>): Decision {
    match pc
    case Start =>
      (match FromPacket(task.packet)
       case Err(error) => Go(Replied(Err(error)))
       case Ok(None) => Go(Bypass)
       case Ok(Some(key)) => Go(CheckCache(key)))
    case Bypass =>
      (match upstream
       case None => Go(Bypass)
       case Some(Err(error)) => Go(Replied(Err(error)))
       case Some(Ok(response)) => Go(Replied(if Validates(task.packet, response) then Ok(response) else Err(Protocol))))
    case Begin(key) =>
      if key in s.table.inFlight then Go(WaitRegister(key, s.table.inFlight[key]))
      else Go(OwnerQuery(key, s.table.next)).(table := OpenFlight(key))
    case _ => Go(pc)
  }

  function BackgroundDecision(task: Task, pc: Pc, upstream: Option<Result<Packet, ErrorKind>>, now: Time): Decision {
    match pc
    case RefreshQuery(key) =>
      (match upstream
       case None => Go(pc)
       case Some(Err(_)) => Go(RefreshEnd(key))
       case Some(Ok(response)) =>
         Go(if Validates(task.packet, response) then RefreshStore(key, response) else RefreshEnd(key)))
    case RefreshStore(key, response) => Go(RefreshEnd(key)).(cache := WriteCache(key, response, now))
    case RefreshEnd(key) => Go(Gone).(marks := Unmark(key))
    case _ => Go(pc)
  }

  function StepDecision(s: State, task: Task, e: Event): Decision
    requires e.Step?
  {
    var pc := task.pc;
    if IsWait(pc) then WaitDecision(s, task, pc)
    else if IsRefresh(pc) then BackgroundDecision(task, pc, e.upstream, e.now)
    else if pc.CheckCache? then CheckDecision(s, task, pc.key, e.now)
    else if pc.StartRefresh? then RefreshDecision(s, task, pc.key, pc.served, e.spawn, e.newId)
    else if pc.OwnerQuery? || pc.OwnerStore? then QueryDecision(s, task, pc, e.upstream, e.now)
    else if IsOwner(pc) then SettleDecision(task.packet, pc)
    else EntryDecision(s, task, pc, e.upstream)
  }

  /** Dropping a future at an await point. The owner's guard abandons its flight; a refresh gives up its mark. */
  function CancelDecision(pc: Pc): Decision {
    match pc
    case OwnerQuery(key, f) => Go(OwnerSet(key, f, Abandoned))
    case RefreshQuery(key) => Go(RefreshEnd(key))
    case Start => Go(Gone)
    case Bypass => Go(Gone)
    case WaitPark(_, _, _) => Go(Gone)
    case _ => Go(pc)
  }

  function Decide(s: State, task: Task, e: Event): Decision {
    match e
    case Step(_, _, _, _, _) => StepDecision(s, task, e)
    case Cancel(_) => CancelDecision(task.pc)
    case StartQuery(_, _, _) => Go(task.pc)
  }

  // ----------------------------------------------------------------- runs

  function Spawned(tasks: map<TaskId, Task>, op: RefreshOp): map<TaskId, Task> {
    if op.Mark? then tasks[op.spawn := op.task] else tasks
  }

  function Perform(s: State, t: TaskId, task: Task, d: Decision): State {
    s.(table := DoTable(s.table, d.table, t),
       refreshing := DoMarks(s.refreshing, d.marks),
       cache := DoCache(s.cache, s.capacity, d.cache),
       tasks := Spawned(s.tasks[t := task.(pc := d.pc)], d.marks))
  }

  /** Starting a task id twice, or moving one that never started, is a no-op. */
  function Apply(s: State, e: Event): State {
    if e.StartQuery? then
      if e.t in s.tasks then s else s.(tasks := s.tasks[e.t := Task(e.packet, e.allowStale, Start)])
    else if e.t in s.tasks then Perform(s, e.t, s.tasks[e.t], Decide(s, s.tasks[e.t], e))
    else s
  }

  function Run(s: State, events: seq<Event>): State {
    if events == [] then s else Apply(Run(s, events[..|events| - 1]), events[|events| - 1])
  }

  predicate IsOwner(pc: Pc) {
    pc.OwnerQuery? || pc.OwnerStore? || pc.OwnerSet? || pc.OwnerNotify? || pc.OwnerRemove?
  }

  predicate IsWait(pc: Pc) {
    pc.WaitRegister? || pc.WaitRead? || pc.WaitPark?
  }

  predicate IsRefresh(pc: Pc) {
    pc.RefreshQuery? || pc.RefreshStore? || pc.RefreshEnd?
  }

  /** A waiter that registered on flight `f` when its count was `seen` has been woken. */
  predicate Awake(flights: map<FlightId, Flight>, f: FlightId, seen: nat) {
    f in flights && flights[f].notified > seen
  }

  /** The locked maps themselves; each method is one or more steps of the step system. */
  class ResolverState {
    var inFlight: map<RawKey, FlightId>
    var flights: map<FlightId, Flight>
    var next: FlightId
    var refreshing: set<RawKey>

    /** Flight ids are used once, and every registered key stands for a known flight. */
    ghost predicate Valid()
      reads this
    {
      && (forall f :: f in flights ==> f < next)
      && (forall k :: k in inFlight ==> inFlight[k] in flights && flights[inFlight[k]].key == k)
    }

    ghost function Contents(): Table
      reads this
    {
      Table(inFlight, flights, next)
    }

    constructor ()
      ensures Valid() && inFlight == map[] && refreshing == {}
    {
      inFlight, flights, next, refreshing := map[], map[], 0, {};
    }

    /** Join the flight of a key, or open one that nobody has seen before. */
    method BeginFlight(key: RawKey, t: TaskId) returns (f: FlightId, owner: bool)
      requires Valid()
      modifies this
      ensures Valid() && refreshing == old(refreshing)
      ensures owner <==> key !in old(inFlight)
      ensures key in inFlight && inFlight[key] == f
      ensures !owner ==> Contents() == old(Contents())
      ensures owner ==>
                && f !in old(flights) && (forall k :: k in old(inFlight) ==> old(inFlight)[k] != f)
                && flights[f].outcome.Pending? && flights[f].owner == t && forall seen: nat :: !Awake(flights, f, seen)
      ensures forall k :: k != key ==> (k in inFlight <==> k in old(inFlight))
      ensures forall k :: k in old(inFlight) ==> inFlight[k] == old(inFlight)[k]
      ensures forall g :: g in old(flights) ==> g in flights && flights[g] == old(flights)[g]
    {
      if key in inFlight {
        return inFlight[key], false;
      }
      f, owner := next, true;
      flights := flights[f := Flight(key, t, Pending, 0)];
      inFlight := inFlight[key := f];
      next := next + 1;
    }

    /** Settle a flight and wake exactly the waiters registered on it so far. */
    method Complete(f: FlightId, outcome: Outcome)
      requires Valid() && f in flights
      modifies this
      ensures Valid() && inFlight == old(inFlight) && refreshing == old(refreshing)
      ensures flights.Keys == old(flights).Keys && flights[f].outcome == outcome
      ensures forall g, seen: nat ::
                Awake(flights, g, seen) <==>
                  old(Awake(flights, g, seen)) || (g == f && seen <= old(flights)[f].notified)
      ensures forall g :: g in flights && g != f ==> flights[g] == old(flights)[g]
      ensures flights[f].key == old(flights)[f].key && flights[f].owner == old(flights)[f].owner
    {
      flights := flights[f := flights[f].(outcome := outcome)];
      flights := flights[f := flights[f].(notified := flights[f].notified + 1)];
    }

    /** Take a key out of the table if it still stands for this flight; a newer flight keeps its key. */
    method Remove(key: RawKey, f: FlightId)
      requires Valid()
      modifies this
      ensures Valid() && flights == old(flights) && refreshing == old(refreshing)
      ensures !(key in inFlight && inFlight[key] == f)
      ensures forall k :: k in old(inFlight) && (k != key || old(inFlight)[k] != f) ==>
                k in inFlight && inFlight[k] == old(inFlight)[k]
      ensures forall k :: k in inFlight ==> k in old(inFlight)
    {
      if key in inFlight && inFlight[key] == f {
        inFlight := inFlight - {key};
      }
    }

    /**
     * The cleanup guard, finished or dropped: every waiter of the owner's
     * flight is awake and finds it settled, no later caller can join it, and
     * no other flight or key is touched.
     */
    method Finish(key: RawKey, f: FlightId, outcome: Outcome)
      requires Valid() && f in flights && flights[f].key == key
      modifies this
      ensures Valid() && refreshing == old(refreshing)
      ensures f in flights && flights[f].outcome == outcome
      ensures forall seen: nat :: seen <= old(flights)[f].notified ==> Awake(flights, f, seen)
      ensures forall k :: k in inFlight ==> inFlight[k] != f
      ensures forall k :: k in old(inFlight) && old(inFlight)[k] != f ==>
                k in inFlight && inFlight[k] == old(inFlight)[k]
      ensures forall g :: g in old(flights) && g != f ==> g in flights && flights[g] == old(flights)[g]
    {
      Complete(f, outcome);
      Remove(key, f);
    }

    /** At most one caller starts the refresh of a key until it is unmarked. */
    method MarkRefresh(key: RawKey) returns (started: bool)
      requires Valid()
      modifies this
      ensures Valid() && Contents() == old(Contents())
      ensures started <==> key !in old(refreshing)
      ensures key in refreshing && forall k :: k != key ==> (k in refreshing <==> k in old(refreshing))
    {
      started := key !in refreshing;
      refreshing := refreshing + {key};
    }

    /** The refresh guard: the next stale hit may start again. */
    method UnmarkRefresh(key: RawKey)
      requires Valid()
      modifies this
      ensures Valid() && Contents() == old(Contents())
      ensures key !in refreshing && forall k :: k != key ==> (k in refreshing <==> k in old(refreshing))
    {
      refreshing := refreshing - {key};
    }
  }
}
