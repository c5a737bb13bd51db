/**
 * UDP relays sharing one table. A relay is known by its socket's local address,
 * so distinct relays have distinct addresses. Every table call and every section
 * under a relay's mapping lock is one step, and steps interleave freely.
 */
module NatRelays {
  import opened Common
  import opened NatTables
  import opened NatIndexes

  type TaskId = nat

  type Relay = SocketAddr

  datatype Pc =
    | SendLock(key: NatKey, idleTimeout: nat)
    | SendTouch(key: NatKey, idleTimeout: nat)
    | SendInsert(key: NatKey, idleTimeout: nat)
    | SendRecord(key: NatKey)
    | SweepLock | SweepTable | SweepLookup | SweepClear
    | CloseTake | CloseRemove(key: NatKey)
    | RecvRead | RecvLookup(key: NatKey) | RecvTouch(key: NatKey)
    | Done

  datatype Task = Task(relay: Relay, pc: Pc)

  /** A relay with no entry in `mapping` owns no source; `holder` is who has its mapping lock. */
  datatype World = World(
    table: Nat,
    mapping: map<Relay, NatKey>,
    holder: map<Relay, TaskId>,
    tasks: map<TaskId, Task>)

  /** A drop is a close with nobody else around. */
  datatype Event =
    | Begin(task: TaskId, relay: Relay, entry: Pc)
    | Step(task: TaskId, now: Time, later: Time)
    | Outside(op: NatOp)

  function Init(): World {
    World(Empty(), map[], map[], map[])
  }

  // ------------------------------------------------------------ one step

  datatype LockOp = KeepLock | Acquire | Release

  datatype MappingOp = KeepMapping | Record(key: NatKey) | Clear

  datatype Decision = Decision(op: Option<NatOp>, pc: Pc, lockOp: LockOp, mappingOp: MappingOp)

  function Wait(pc: Pc): Decision {
    Decision(None, pc, KeepLock, KeepMapping)
  }

  function Return(lockOp: LockOp): Decision {
    Decision(None, Done, lockOp, KeepMapping)
  }

  predicate Sending(pc: Pc) {
    pc.SendLock? || pc.SendTouch? || pc.SendInsert? || pc.SendRecord?
  }

  predicate Sweeping(pc: Pc) {
    pc.SweepLock? || pc.SweepTable? || pc.SweepLookup? || pc.SweepClear?
  }

  ghost function DecideSend(w: World, a: Relay, pc: Pc, now: Time, later: Time): Decision {
    match pc
    case SendLock(key, idleTimeout) =>
      if a in w.holder then Wait(pc)
      else if a in w.mapping && KeyOf(w.mapping[a]) != KeyOf(key) then Return(KeepLock)
      else Decision(None, SendTouch(key, idleTimeout), Acquire, KeepMapping)
    case SendTouch(key, idleTimeout) =>
      var hit := SpecTouch(w.table, key, now, later).1;
      var op := Some(TouchOp(key, now, later));
      if hit.None? then Decision(op, SendInsert(key, idleTimeout), KeepLock, KeepMapping)
      else if hit.value.translated != a then Decision(op, Done, Release, KeepMapping)
      else Decision(op, SendRecord(key), KeepLock, KeepMapping)
    case SendInsert(key, idleTimeout) =>
      var op := Some(InsertOp(key, a, idleTimeout, now));
      if SpecInsert(w.table, key, a, idleTimeout, now).1.Err? then Decision(op, Done, Release, KeepMapping)
      else Decision(op, SendRecord(key), KeepLock, KeepMapping)
    case SendRecord(key) =>
      Decision(None, Done, Release,
               Record(if a in w.mapping then w.mapping[a].(destination := key.destination) else key))
    case _ => Wait(pc)
  }

  ghost function DecideSweep(w: World, a: Relay, pc: Pc, now: Time, later: Time): Decision {
    match pc
    case SweepLock => if a in w.holder then Wait(pc) else Decision(None, SweepTable, Acquire, KeepMapping)
    case SweepTable =>
      var removed := Flows(Restrict(w.table.bindings, ExpiredKeys(w.table.bindings, now)));
      if removed != {} && a in w.mapping then Decision(Some(SweepOp(now)), SweepLookup, KeepLock, KeepMapping)
      else Decision(Some(SweepOp(now)), Done, Release, KeepMapping)
    case SweepLookup =>
      var op := Some(LookupTranslatedOp(Udp, a, now, later));
      if SpecLookupTranslated(w.table, Udp, a, now, later).1.None? then Decision(op, SweepClear, KeepLock, KeepMapping)
      else Decision(op, Done, Release, KeepMapping)
    case SweepClear => Decision(None, Done, Release, Clear)
    case _ => Wait(pc)
  }

  ghost function DecideRest(w: World, a: Relay, pc: Pc, now: Time, later: Time): Decision {
    match pc
    case CloseTake =>
      if a in w.holder then Wait(pc)
      else if a in w.mapping then Decision(None, CloseRemove(w.mapping[a]), KeepLock, Clear)
      else Return(KeepLock)
    case CloseRemove(key) => Decision(Some(RemoveSourceOp(KeyOf(key))), Done, KeepLock, KeepMapping)
    case RecvRead =>
      if a in w.holder then Wait(pc)
      else if a in w.mapping then Decision(None, RecvLookup(w.mapping[a]), KeepLock, KeepMapping)
      else Return(KeepLock)
    case RecvLookup(key) =>
      var op := Some(LookupTranslatedOp(Udp, a, now, later));
      if SpecLookupTranslated(w.table, Udp, a, now, later).1.None? then Decision(op, Done, KeepLock, KeepMapping)
      else Decision(op, RecvTouch(key), KeepLock, KeepMapping)
    case RecvTouch(key) => Decision(Some(TouchOp(key, now, later)), Done, KeepLock, KeepMapping)
    case _ => Wait(pc)
  }

  ghost function Decide(w: World, task: Task, now: Time, later: Time): Decision {
    if Sending(task.pc) then DecideSend(w, task.relay, task.pc, now, later)
    else if Sweeping(task.pc) then DecideSweep(w, task.relay, task.pc, now, later)
    else DecideRest(w, task.relay, task.pc, now, later)
  }

  ghost function DoTable(table: Nat, op: Option<NatOp>): Nat {
    if op.None? then table else SpecStep(table, op.value)
  }

  function DoMapping(mapping: map<Relay, NatKey>, a: Relay, op: MappingOp): map<Relay, NatKey> {
    match op
    case KeepMapping => mapping
    case Record(key) => mapping[a := key]
    case Clear => mapping - {a}
  }

  function DoLock(holder: map<Relay, TaskId>, a: Relay, t: TaskId, op: LockOp): map<Relay, TaskId> {
    match op
    case KeepLock => holder
    case Acquire => holder[a := t]
    case Release => holder - {a}
  }

  ghost function Apply(w: World, t: TaskId, a: Relay, d: Decision): World {
    World(DoTable(w.table, d.op), DoMapping(w.mapping, a, d.mappingOp), DoLock(w.holder, a, t, d.lockOp),
          w.tasks[t := Task(a, d.pc)])
  }

  predicate MapsTo(op: NatOp, network: Network, address: SocketAddr) {
    || (op.InsertOp? && op.key.network == network && op.translated == address)
    || (op.BindOp? && op.binding.network == network && op.translated == address)
  }

  /** Other users of the table never map a UDP source onto a relay's own socket. */
  ghost predicate Permitted(relays: set<Relay>, w: World, e: Event) {
    match e
    case Begin(t, a, entry) =>
      t !in w.tasks && a in relays && (entry.SendLock? || entry.SweepLock? || entry.CloseTake? || entry.RecvRead?)
    case Step(t, _, _) => t in w.tasks
    case Outside(op) => forall a :: a in relays ==> !MapsTo(op, Udp, a)
  }

  ghost function Next(relays: set<Relay>, w: World, e: Event): World {
    if !Permitted(relays, w, e) then w
    else match e
      case Begin(t, a, entry) => w.(tasks := w.tasks[t := Task(a, entry)])
      case Step(t, now, later) => Apply(w, t, w.tasks[t].relay, Decide(w, w.tasks[t], now, later))
      case Outside(op) => w.(table := SpecStep(w.table, op))
  }

  ghost function Run(relays: set<Relay>, events: seq<Event>): World {
    if events == [] then Init() else Next(relays, Run(relays, events[..|events| - 1]), events[|events| - 1])
  }

  // --------------------------------------------------------- the invariant

  predicate Locked(pc: Pc) {
    pc.SendTouch? || pc.SendInsert? || pc.SendRecord? || pc.SweepTable? || pc.SweepLookup? || pc.SweepClear?
  }

  /** A task past its lock owns it; a sender agrees with the recorded source; a sweeper about to clear found nothing. */
  ghost predicate TaskOk(w: World, t: TaskId) {
    t in w.tasks ==>
      var a, pc := w.tasks[t].relay, w.tasks[t].pc;
      && (Locked(pc) ==> a in w.holder && w.holder[a] == t)
      && ((pc.SendTouch? || pc.SendInsert? || pc.SendRecord?) && a in w.mapping ==>
            KeyOf(w.mapping[a]) == KeyOf(pc.key))
      && (pc.SweepClear? ==> !Taken(w.table.bindings, Udp, a))
  }

  /** A held lock has a task behind it that will release it. */
  ghost predicate HolderOk(w: World, a: Relay) {
    a in w.holder ==>
      var t := w.holder[a];
      t in w.tasks && w.tasks[t].relay == a && Locked(w.tasks[t].pc)
  }

  /** A send that mapped the source but has not recorded it, or a close that took the record. */
  ghost predicate InHand(w: World, t: TaskId, a: Relay, k: BindingKey) {
    && t in w.tasks && w.tasks[t].relay == a
    && (w.tasks[t].pc.SendRecord? || w.tasks[t].pc.CloseRemove?) && KeyOf(w.tasks[t].pc.key) == k
  }

  ghost predicate Covered(w: World, a: Relay, k: BindingKey) {
    (a in w.mapping && KeyOf(w.mapping[a]) == k) || exists t :: InHand(w, t, a, k)
  }

  ghost predicate Coverage(relays: set<Relay>, w: World) {
    forall a, k :: a in relays && Behind(w.table.bindings, Udp, a, k) ==> Covered(w, a, k)
  }

  ghost predicate Inv(relays: set<Relay>, w: World) {
    && Sound(w.table)
    && (forall t :: t in w.tasks ==> w.tasks[t].relay in relays)
    && (forall t :: TaskOk(w, t))
    && (forall a :: HolderOk(w, a))
    && Coverage(relays, w)
  }

  /** An operation that maps nothing to `a` leaves at most what was there. */
  lemma NothingNewBehind(n: Nat, op: Option<NatOp>, a: SocketAddr)
    requires op.Some? ==> !MapsTo(op.value, Udp, a)
    ensures forall k :: Behind(DoTable(n, op).bindings, Udp, a, k) ==> Behind(n.bindings, Udp, a, k)
  {
    if op.Some? {
      forall k | Behind(SpecStep(n, op.value).bindings, Udp, a, k)
        ensures Behind(n.bindings, Udp, a, k)
      {
        OnlyInsertAndBindMap(n, op.value, Udp, a, k);
      }
    }
  }

  lemma SenderOk(relays: set<Relay>, w: World, t: TaskId, now: Time, later: Time)
    requires Inv(relays, w) && t in w.tasks && Sending(w.tasks[t].pc)
    ensures TaskOk(Next(relays, w, Step(t, now, later)), t)
  {
    assert TaskOk(w, t);
  }

  lemma SweeperOk(relays: set<Relay>, w: World, t: TaskId, now: Time, later: Time)
    requires Inv(relays, w) && t in w.tasks && Sweeping(w.tasks[t].pc)
    ensures TaskOk(Next(relays, w, Step(t, now, later)), t)
  {
    assert TaskOk(w, t);
    if w.tasks[t].pc.SweepLookup? && SpecLookupTranslated(w.table, Udp, w.tasks[t].relay, now, later).1.None? {
      FailedLookupLeavesNothing(w.table, Udp, w.tasks[t].relay, now, later);
    }
  }

  lemma MoverOk(relays: set<Relay>, w: World, t: TaskId, now: Time, later: Time)
    requires Inv(relays, w) && t in w.tasks
    ensures TaskOk(Next(relays, w, Step(t, now, later)), t)
  {
    if Sending(w.tasks[t].pc) {
      SenderOk(relays, w, t, now, later);
    } else if Sweeping(w.tasks[t].pc) {
      SweeperOk(relays, w, t, now, later);
    }
  }

  lemma OthersOk(relays: set<Relay>, w: World, t: TaskId, now: Time, later: Time, other: TaskId)
    requires Inv(relays, w) && t in w.tasks && other in w.tasks && other != t
    ensures TaskOk(Next(relays, w, Step(t, now, later)), other)
  {
    assert TaskOk(w, t) && TaskOk(w, other);
    var d := Decide(w, w.tasks[t], now, later);
    var a := w.tasks[other].relay;
    if w.tasks[other].pc.SweepClear? {
      NothingNewBehind(w.table, d.op, a);
    }
  }

  /** A lock changes hands only when it is free, and is released only by its holder. */
  lemma LocksOk(relays: set<Relay>, w: World, t: TaskId, now: Time, later: Time, a: Relay)
    requires Inv(relays, w) && t in w.tasks
    ensures HolderOk(Next(relays, w, Step(t, now, later)), a)
  {
    assert TaskOk(w, t) && HolderOk(w, a);
  }

  lemma OldStaysCovered(relays: set<Relay>, w: World, t: TaskId, now: Time, later: Time, a: Relay, k: BindingKey)
    requires Inv(relays, w) && t in w.tasks && a in relays && Behind(w.table.bindings, Udp, a, k)
    requires Behind(Next(relays, w, Step(t, now, later)).table.bindings, Udp, a, k)
    ensures Covered(Next(relays, w, Step(t, now, later)), a, k)
  {
    assert TaskOk(w, t);
    var w' := Next(relays, w, Step(t, now, later));
    if a in w.mapping && KeyOf(w.mapping[a]) == k {
      assert w.tasks[t] == Task(a, CloseTake) && a !in w.holder ==> InHand(w', t, a, k);
    } else {
      var u :| InHand(w, u, a, k);
      if u != t {
        assert InHand(w', u, a, k);
      }
    }
  }

  lemma OnlySendInsertMaps(w: World, task: Task, now: Time, later: Time, a: Relay)
    requires Decide(w, task, now, later).op.Some? && MapsTo(Decide(w, task, now, later).op.value, Udp, a)
    ensures task.pc.SendInsert? && task.relay == a
  {
  }

  lemma NewIsCovered(relays: set<Relay>, w: World, t: TaskId, now: Time, later: Time, a: Relay, k: BindingKey)
    requires Inv(relays, w) && t in w.tasks && a in relays && !Behind(w.table.bindings, Udp, a, k)
    requires Behind(Next(relays, w, Step(t, now, later)).table.bindings, Udp, a, k)
    ensures Covered(Next(relays, w, Step(t, now, later)), a, k)
  {
    var d := Decide(w, w.tasks[t], now, later);
    assert d.op.Some?;
    OnlyInsertAndBindMap(w.table, d.op.value, Udp, a, k);
    OnlySendInsertMaps(w, w.tasks[t], now, later, a);
    assert d.pc.SendRecord?;
    assert InHand(Next(relays, w, Step(t, now, later)), t, a, k);
  }

  lemma StepKeepsInv(relays: set<Relay>, w: World, t: TaskId, now: Time, later: Time)
    requires Inv(relays, w) && t in w.tasks
    ensures Inv(relays, Next(relays, w, Step(t, now, later)))
  {
    var w' := Next(relays, w, Step(t, now, later));
    var d := Decide(w, w.tasks[t], now, later);
    if d.op.Some? {
      StepSound(w.table, d.op.value);
    }
    forall u ensures TaskOk(w', u) {
      if u == t {
        MoverOk(relays, w, t, now, later);
      } else if u in w.tasks {
        OthersOk(relays, w, t, now, later, u);
      }
    }
    forall a ensures HolderOk(w', a) {
      LocksOk(relays, w, t, now, later, a);
    }
    forall a, k | a in relays && Behind(w'.table.bindings, Udp, a, k) ensures Covered(w', a, k) {
      if Behind(w.table.bindings, Udp, a, k) {
        OldStaysCovered(relays, w, t, now, later, a, k);
      } else {
        NewIsCovered(relays, w, t, now, later, a, k);
      }
    }
  }

  lemma OutsideKeepsInv(relays: set<Relay>, w: World, op: NatOp)
    requires Inv(relays, w) && Permitted(relays, w, Outside(op))
    ensures Inv(relays, Next(relays, w, Outside(op)))
  {
    var w' := Next(relays, w, Outside(op));
    StepSound(w.table, op);
    forall a | a in relays
      ensures forall k :: Behind(w'.table.bindings, Udp, a, k) ==> Behind(w.table.bindings, Udp, a, k)
    {
      NothingNewBehind(w.table, Some(op), a);
    }
    forall t ensures TaskOk(w', t) {
      assert TaskOk(w, t);
    }
    forall a ensures HolderOk(w', a) {
      assert HolderOk(w, a);
    }
    forall a, k | a in relays && Behind(w'.table.bindings, Udp, a, k) ensures Covered(w', a, k) {
      assert Covered(w, a, k);
      if t :| InHand(w, t, a, k) {
        assert InHand(w', t, a, k);
      }
    }
  }

  lemma BeginKeepsInv(relays: set<Relay>, w: World, t: TaskId, a: Relay, entry: Pc)
    requires Inv(relays, w) && Permitted(relays, w, Begin(t, a, entry))
    ensures Inv(relays, Next(relays, w, Begin(t, a, entry)))
  {
    var w' := Next(relays, w, Begin(t, a, entry));
    forall u ensures TaskOk(w', u) {
      assert TaskOk(w, u);
    }
    forall b ensures HolderOk(w', b) {
      assert HolderOk(w, b);
    }
    forall b, k | b in relays && Behind(w'.table.bindings, Udp, b, k) ensures Covered(w', b, k) {
      assert Covered(w, b, k);
      if u :| InHand(w, u, b, k) {
        assert InHand(w', u, b, k);
      }
    }
  }

  lemma {:induction false} InvOverEveryRun(relays: set<Relay>, events: seq<Event>)
    ensures Inv(relays, Run(relays, events))
  {
    if events != [] {
      var w, e := Run(relays, events[..|events| - 1]), events[|events| - 1];
      InvOverEveryRun(relays, events[..|events| - 1]);
      if Permitted(relays, w, e) {
        match e {
          case Begin(t, a, entry) => BeginKeepsInv(relays, w, t, a, entry);
          case Step(t, now, later) => StepKeepsInv(relays, w, t, now, later);
          case Outside(op) => OutsideKeepsInv(relays, w, op);
        }
      }
    }
  }

  // --------------------------------------------------------- the theorems

  /** In every reachable state each UDP binding at a relay's address is that relay's, on record or in hand. */
  lemma EveryBindingIsCovered(relays: set<Relay>, events: seq<Event>, a: Relay, k: BindingKey)
    requires a in relays && Behind(Run(relays, events).table.bindings, Udp, a, k)
    ensures Covered(Run(relays, events), a, k)
  {
    InvOverEveryRun(relays, events);
  }

  /** A relay with no record and nothing in hand has no binding. */
  lemma NothingLeftBehind(relays: set<Relay>, events: seq<Event>, a: Relay)
    requires a in relays && a !in Run(relays, events).mapping
    requires forall t, k :: !InHand(Run(relays, events), t, a, k)
    ensures !Taken(Run(relays, events).table.bindings, Udp, a)
  {
    InvOverEveryRun(relays, events);
  }

  ghost predicate NoSender(w: World, a: Relay) {
    forall t :: t in w.tasks && w.tasks[t].relay == a ==> !Sending(w.tasks[t].pc)
  }

  ghost predicate NoCloser(w: World, a: Relay) {
    forall t :: t in w.tasks && w.tasks[t].relay == a ==> !w.tasks[t].pc.CloseRemove?
  }

  ghost predicate BeginsNoSend(events: seq<Event>, a: Relay) {
    forall e :: e in events && e.Begin? && e.relay == a ==> !e.entry.SendLock?
  }

  lemma RunSnoc(relays: set<Relay>, events: seq<Event>, e: Event)
    ensures Run(relays, events + [e]) == Next(relays, Run(relays, events), e)
  {
    assert (events + [e])[..|events|] == events;
  }

  lemma ReleasedStep(relays: set<Relay>, w: World, e: Event, a: Relay)
    requires a !in w.mapping && NoSender(w, a) && !(e.Begin? && e.relay == a && e.entry.SendLock?)
    ensures a !in Next(relays, w, e).mapping && NoSender(Next(relays, w, e), a)
  {
  }

  /** Without a sender, no interleaving of other relays, sweeps, closes and table users gives a record back. */
  lemma {:induction false} StaysReleased(relays: set<Relay>, events: seq<Event>, more: seq<Event>, a: Relay)
    requires a !in Run(relays, events).mapping && NoSender(Run(relays, events), a) && BeginsNoSend(more, a)
    ensures a !in Run(relays, events + more).mapping && NoSender(Run(relays, events + more), a)
  {
    if more == [] {
      assert events + more == events;
    } else {
      var front := more[..|more| - 1];
      StaysReleased(relays, events, front, a);
      assert more[|more| - 1] in more;
      ReleasedStep(relays, Run(relays, events + front), more[|more| - 1], a);
      RunSnoc(relays, events + front, more[|more| - 1]);
      assert events + more == events + front + [more[|more| - 1]];
    }
  }

  /** After a close took the record, once the closes in progress return, the address is free whatever else ran. */
  lemma CloseFreesTheAddress(relays: set<Relay>, events: seq<Event>, more: seq<Event>, a: Relay)
    requires a in relays && a !in Run(relays, events).mapping
    requires NoSender(Run(relays, events), a) && BeginsNoSend(more, a)
    requires NoCloser(Run(relays, events + more), a)
    ensures !Taken(Run(relays, events + more).table.bindings, Udp, a)
  {
    StaysReleased(relays, events, more, a);
    NothingLeftBehind(relays, events + more, a);
  }

  lemma RunTwo(relays: set<Relay>, events: seq<Event>, e: Event, f: Event)
    ensures Run(relays, events + [e, f]) == Next(relays, Next(relays, Run(relays, events), e), f)
  {
    RunSnoc(relays, events, e);
    RunSnoc(relays, events + [e], f);
    assert events + [e] + [f] == events + [e, f];
  }

  /** A second close of a released relay touches neither the table nor any record. */
  lemma SecondCloseChangesNothing(relays: set<Relay>, events: seq<Event>, a: Relay, t: TaskId, now: Time, later: Time)
    requires a in relays && a !in Run(relays, events).mapping && t !in Run(relays, events).tasks
    ensures var w := Run(relays, events);
            var w' := Run(relays, events + [Begin(t, a, CloseTake), Step(t, now, later)]);
            && w'.table == w.table && w'.mapping == w.mapping && w'.holder == w.holder
            && (a !in w.holder ==> w'.tasks == w.tasks[t := Task(a, Done)])
  {
    var w := Run(relays, events);
    RunTwo(relays, events, Begin(t, a, CloseTake), Step(t, now, later));
    assert w.tasks[t := Task(a, CloseTake)][t := Task(a, Done)] == w.tasks[t := Task(a, Done)];
  }

  ghost predicate Idle(w: World, a: Relay) {
    a !in w.holder && forall u :: u in w.tasks && w.tasks[u].relay == a ==> w.tasks[u].pc.Done?
  }

  lemma CloseTakesTheRecord(relays: set<Relay>, w: World, a: Relay, t: TaskId, now: Time, later: Time)
    requires a in relays && t !in w.tasks && Idle(w, a)
    ensures var taken := Next(relays, Next(relays, w, Begin(t, a, CloseTake)), Step(t, now, later));
            && a !in taken.mapping && NoSender(taken, a) && t in taken.tasks && taken.tasks[t].relay == a
            && (forall u :: u in taken.tasks && u != t && taken.tasks[u].relay == a ==> taken.tasks[u].pc.Done?)
            && (taken.tasks[t].pc.CloseRemove? || taken.tasks[t].pc.Done?)
  {
  }

  /** The whole close of an idle relay, from any reachable state, frees its address. */
  lemma CloseOfIdleRelay(relays: set<Relay>, events: seq<Event>, a: Relay, t: TaskId, now: Time, later: Time)
    requires a in relays && t !in Run(relays, events).tasks && Idle(Run(relays, events), a)
    ensures var w := Run(relays, events + [Begin(t, a, CloseTake), Step(t, now, later)] + [Step(t, now, later)]);
            a !in w.mapping && !Taken(w.table.bindings, Udp, a)
  {
    var taken := events + [Begin(t, a, CloseTake), Step(t, now, later)];
    RunTwo(relays, events, Begin(t, a, CloseTake), Step(t, now, later));
    CloseTakesTheRecord(relays, Run(relays, events), a, t, now, later);
    RunSnoc(relays, taken, Step(t, now, later));
    assert NoCloser(Run(relays, taken + [Step(t, now, later)]), a);
    StaysReleased(relays, taken, [Step(t, now, later)], a);
    CloseFreesTheAddress(relays, taken, [Step(t, now, later)], a);
  }

  // ------------------------------------- why the theorems speak of UDP only

  /** A fresh relay sends on a TCP key: the table maps the source to the relay and the relay records it. */
  lemma TcpSend(a: Relay, key: NatKey)
    requires key.network == Tcp
    ensures var step := Step(0, 0, 0);
            var w := Run({a}, [Begin(0, a, SendLock(key, 9)), step] + [step, step] + [step]);
            && w.table.bindings == map[KeyOf(key) := Binding(NatEntry(a, 0, 0, 9), {key.destination})]
            && w.mapping == map[a := key] && w.holder == map[] && w.tasks == map[0 := Task(a, Done)]
  {
    var begin, step := Begin(0, a, SendLock(key, 9)), Step(0, 0, 0);
    RunTwo({a}, [], begin, step);
    assert [] + [begin, step] == [begin, step];
    var w := Run({a}, [begin, step]);
    assert w == World(Empty(), map[], map[a := 0], map[0 := Task(a, SendTouch(key, 9))]);
    RunTwo({a}, [begin, step], step, step);
    var w' := Next({a}, w, step);
    assert w'.tasks[0] == Task(a, SendInsert(key, 9)) && w'.table.bindings == map[];
    var w'' := Next({a}, w', step);
    assert w''.tasks[0] == Task(a, SendRecord(key));
    RunSnoc({a}, [begin, step] + [step, step], step);
  }

  /** A sweeping relay past its lock that finds something to remove goes on to look itself up. */
  lemma SweepFindsSomething(w: World, a: Relay, k: BindingKey, now: Time)
    requires a in w.mapping && a !in w.holder && 1 in w.tasks && w.tasks[1] == Task(a, SweepLock)
    requires Behind(w.table.bindings, Tcp, a, k) && !Expired(w.table.bindings[k].entry, now)
    requires Flows(Restrict(w.table.bindings, ExpiredKeys(w.table.bindings, now))) != {}
    ensures var w' := Next({a}, Next({a}, w, Step(1, now, now)), Step(1, now, now));
            && w'.table == SpecSweep(w.table, now) && Behind(w'.table.bindings, Tcp, a, k)
            && w'.tasks == w.tasks[1 := Task(a, SweepLookup)]
  {
    var locked := Next({a}, w, Step(1, now, now));
    assert locked.tasks[1].pc == SweepTable && locked.table == w.table;
    assert w.tasks[1 := Task(a, SweepTable)][1 := Task(a, SweepLookup)] == w.tasks[1 := Task(a, SweepLookup)];
  }

  /** It looks for a UDP binding, finds none, and drops the record of its live TCP binding. */
  lemma SweepDropsTcpRecord(w: World, a: Relay, k: BindingKey, now: Time)
    requires 1 in w.tasks && w.tasks[1] == Task(a, SweepLookup)
    requires Behind(w.table.bindings, Tcp, a, k) && !Taken(w.table.bindings, Udp, a)
    ensures var w' := Next({a}, Next({a}, w, Step(1, now, now)), Step(1, now, now));
            && a !in w'.mapping && a !in w'.holder && w'.tasks == w.tasks[1 := Task(a, Done)]
            && Behind(w'.table.bindings, Tcp, a, k)
  {
    var looked := Next({a}, w, Step(1, now, now));
    assert looked.tasks[1].pc == SweepClear && looked.table.bindings == w.table.bindings;
    assert w.tasks[1 := Task(a, SweepClear)][1 := Task(a, Done)] == w.tasks[1 := Task(a, Done)];
  }

  /** A TCP send, then somebody else's short-lived UDP flow, then a sweep call. */
  function TcpThenSweep(a: Relay, key: NatKey, flow: NatKey, endpoint: SocketAddr): seq<Event> {
    [Begin(0, a, SendLock(key, 9)), Step(0, 0, 0)] + [Step(0, 0, 0), Step(0, 0, 0)] + [Step(0, 0, 0)]
    + [Outside(InsertOp(flow, endpoint, 1, 0)), Begin(1, a, SweepLock)]
  }

  /** Somebody else's short-lived UDP flow joins the table, and the relay starts a sweep. */
  lemma UdpJoins(w: World, a: Relay, key: NatKey, flow: NatKey, endpoint: SocketAddr)
    requires key.network == Tcp && flow.network == Udp && endpoint != a
    requires w.table.bindings == map[KeyOf(key) := Binding(NatEntry(a, 0, 0, 9), {key.destination})]
    requires w.tasks == map[0 := Task(a, Done)]
    ensures var w' := Next({a}, Next({a}, w, Outside(InsertOp(flow, endpoint, 1, 0))), Begin(1, a, SweepLock));
            && w'.mapping == w.mapping && w'.holder == w.holder
            && w'.tasks == map[0 := Task(a, Done), 1 := Task(a, SweepLock)]
            && w'.table.bindings ==
                 w.table.bindings[KeyOf(flow) := Binding(NatEntry(endpoint, 0, 0, 1), {flow.destination})]
  {
    assert forall k :: !Behind(w.table.bindings, Udp, endpoint, k);
    var joined := Next({a}, w, Outside(InsertOp(flow, endpoint, 1, 0)));
    assert joined.tasks == w.tasks;
  }

  lemma TcpBesideUdp(a: Relay, key: NatKey, flow: NatKey, endpoint: SocketAddr)
    requires key.network == Tcp && flow.network == Udp && endpoint != a
    ensures var w := Run({a}, TcpThenSweep(a, key, flow, endpoint));
            && a in w.mapping && a !in w.holder && w.tasks == map[0 := Task(a, Done), 1 := Task(a, SweepLock)]
            && Behind(w.table.bindings, Tcp, a, KeyOf(key)) && !Expired(w.table.bindings[KeyOf(key)].entry, 5)
            && !Taken(w.table.bindings, Udp, a)
            && Flows(Restrict(w.table.bindings, ExpiredKeys(w.table.bindings, 5))) != {}
  {
    var sent := [Begin(0, a, SendLock(key, 9)), Step(0, 0, 0)] + [Step(0, 0, 0), Step(0, 0, 0)] + [Step(0, 0, 0)];
    TcpSend(a, key);
    RunTwo({a}, sent, Outside(InsertOp(flow, endpoint, 1, 0)), Begin(1, a, SweepLock));
    UdpJoins(Run({a}, sent), a, key, flow, endpoint);
    var b := Run({a}, TcpThenSweep(a, key, flow, endpoint)).table.bindings;
    assert flow in Flows(Restrict(b, ExpiredKeys(b, 5)));
  }

  lemma SweepOverTcp(begun: seq<Event>, a: Relay, k: BindingKey, now: Time)
    requires var w := Run({a}, begun);
             && a in w.mapping && a !in w.holder && w.tasks == map[0 := Task(a, Done), 1 := Task(a, SweepLock)]
             && Behind(w.table.bindings, Tcp, a, k) && !Expired(w.table.bindings[k].entry, now)
             && !Taken(w.table.bindings, Udp, a)
             && Flows(Restrict(w.table.bindings, ExpiredKeys(w.table.bindings, now))) != {}
    ensures var w := Run({a}, begun + [Step(1, now, now), Step(1, now, now)] + [Step(1, now, now), Step(1, now, now)]);
            Idle(w, a) && a !in w.mapping && Behind(w.table.bindings, Tcp, a, k)
  {
    var step := Step(1, now, now);
    SweepFindsSomething(Run({a}, begun), a, k, now);
    RunTwo({a}, begun, step, step);
    NothingNewBehind(Run({a}, begun).table, Some(SweepOp(now)), a);
    SweepDropsTcpRecord(Run({a}, begun + [step, step]), a, k, now);
    RunTwo({a}, begun + [step, step], step, step);
  }

  /** So an idle relay with no record can still have a TCP binding at its address, which no close will remove. */
  lemma TcpRecordCanBeLost(a: Relay, key: NatKey, flow: NatKey, endpoint: SocketAddr) returns (events: seq<Event>)
    requires key.network == Tcp && flow.network == Udp && endpoint != a
    ensures Idle(Run({a}, events), a) && a !in Run({a}, events).mapping
    ensures Taken(Run({a}, events).table.bindings, Tcp, a)
    ensures forall e :: e in events && e.Outside? ==> !MapsTo(e.op, Tcp, a) && !MapsTo(e.op, Udp, a)
  {
    var begun := TcpThenSweep(a, key, flow, endpoint);
    TcpBesideUdp(a, key, flow, endpoint);
    SweepOverTcp(begun, a, KeyOf(key), 5);
    events := begun + [Step(1, 5, 5), Step(1, 5, 5)] + [Step(1, 5, 5), Step(1, 5, 5)];
  }
}
