/** What every interleaving of the resolver's steps keeps, and what callers may rely on. */
module SingleflightSafety {
  import opened Common
  import opened DnsMessages
  import opened DnsCaches
  import opened LruMaps
  import opened Singleflight

  // -------------------------------------------------------------- flights

  ghost predicate GoodFlight(fl: Flight) {
    && fl.notified <= 1
    && (fl.notified == 1 ==> !fl.outcome.Pending?)
    && (fl.outcome.Completed? && fl.outcome.result.Ok? ==> Answers(fl.key, fl.outcome.result.value))
  }

  ghost predicate SharedFlights(tb: Table) {
    && (forall f :: f in tb.flights ==> f < tb.next && GoodFlight(tb.flights[f]))
    && (forall k :: k in tb.inFlight ==> tb.inFlight[k] in tb.flights && tb.flights[tb.inFlight[k]].key == k)
  }

  /** An outcome that may be published under `key`. */
  ghost predicate GoodOutcome(key: RawKey, outcome: Outcome) {
    && !outcome.Pending?
    && (outcome.Completed? && outcome.result.Ok? ==> Answers(key, outcome.result.value))
  }

  /** An owner's flight is registered under its key, is its own, and is as settled as its program counter says. */
  ghost predicate Owns(tb: Table, t: TaskId, pc: Pc)
    requires IsOwner(pc)
  {
    && pc.key in tb.inFlight && tb.inFlight[pc.key] == pc.f
    && pc.f in tb.flights && tb.flights[pc.f].key == pc.key && tb.flights[pc.f].owner == t
    && var fl := tb.flights[pc.f];
    match pc
    case OwnerQuery(_, _) => fl.outcome.Pending? && fl.notified == 0
    case OwnerStore(_, _, response) => fl.outcome.Pending? && fl.notified == 0 && Answers(pc.key, response)
    case OwnerSet(_, _, outcome) => fl.outcome.Pending? && fl.notified == 0 && GoodOutcome(pc.key, outcome)
    case OwnerNotify(_, _, outcome) => fl.outcome == outcome && fl.notified == 0 && GoodOutcome(pc.key, outcome)
    case OwnerRemove(_, _, outcome) => fl.outcome == outcome && fl.notified == 1 && GoodOutcome(pc.key, outcome)
  }

  /** A follower's flight exists and answers its key; it parks only if it registered before any notification. */
  ghost predicate Waits(tb: Table, pc: Pc)
    requires IsWait(pc)
  {
    && pc.f in tb.flights && tb.flights[pc.f].key == pc.key
    && (pc.WaitRead? ==> pc.seen <= tb.flights[pc.f].notified)
    && (pc.WaitPark? ==> pc.seen == 0)
  }

  predicate HasKeyField(pc: Pc) {
    IsOwner(pc) || IsWait(pc) || IsRefresh(pc) || pc.CheckCache? || pc.StartRefresh? || pc.Begin?
  }

  ghost predicate TaskFlights(tb: Table, t: TaskId, task: Task) {
    && (HasKeyField(task.pc) ==> HasKey(task.packet, task.pc.key))
    && (IsOwner(task.pc) ==> Owns(tb, t, task.pc))
    && (IsWait(task.pc) ==> Waits(tb, task.pc))
    && (task.pc.StartRefresh? ==> Answers(task.pc.key, task.pc.served))
    && (task.pc.RefreshStore? ==> Answers(task.pc.key, task.pc.response))
    && (task.pc.Replied? && task.pc.reply.Ok? ==> Validates(task.packet, task.pc.reply.value))
  }

  ghost predicate GoodCache(c: Option<Cache>) {
    c.Some? ==> forall s :: s in c.value.items ==> Answers(s.key, Decodes(s.value.message))
  }

  /** Marks and live refresh tasks are one to one. */
  ghost predicate TaskMarks(marks: map<RawKey, TaskId>, t: TaskId, pc: Pc) {
    IsRefresh(pc) ==> pc.key in marks && marks[pc.key] == t
  }

  // ---------------------------------------------------------------- moves

  lemma ReplyValidates(task: Task, key: RawKey, result: Result<Packet, ErrorKind>)
    requires HasKey(task.packet, key) && (result.Ok? ==> Answers(key, result.value))
    ensures ReplyTo(task.packet, result).Ok? ==> Validates(task.packet, ReplyTo(task.packet, result).value)
  {
    if result.Ok? {
      RewrittenAnswerValidates(task.packet, key, result.value);
    }
  }

  lemma QueryMove(s: State, t: TaskId, task: Task, upstream: Option<Result<Packet, ErrorKind>>, now: Time)
    requires TaskFlights(s.table, t, task) && (task.pc.OwnerQuery? || task.pc.OwnerStore?)
    ensures var d := QueryDecision(s, task, task.pc, upstream, now);
      && TaskFlights(s.table, t, task.(pc := d.pc))
      && (d.cache.WriteCache? ==> Answers(d.cache.key, d.cache.packet))
      && d.table.KeepTable? && d.marks.KeepMarks? && !IsRefresh(d.pc)
  {
    if task.pc.OwnerQuery? && upstream.Some? && upstream.value.Ok? && Validates(task.packet, upstream.value.value) {
      ValidatedAnswersKey(task.packet, task.pc.key, upstream.value.value);
    }
  }

  lemma SettleMove(s: State, t: TaskId, task: Task)
    requires SharedFlights(s.table) && TaskFlights(s.table, t, task)
    requires task.pc.OwnerSet? || task.pc.OwnerNotify? || task.pc.OwnerRemove?
    ensures var d := SettleDecision(task.packet, task.pc);
      && SharedFlights(DoTable(s.table, d.table, t))
      && TaskFlights(DoTable(s.table, d.table, t), t, task.(pc := d.pc))
      && d.cache.KeepCache? && d.marks.KeepMarks? && !IsRefresh(d.pc)
  {
    if task.pc.OwnerRemove? && task.pc.outcome.Completed? {
      ReplyValidates(task, task.pc.key, task.pc.outcome.result);
    }
  }

  lemma WaitMove(s: State, t: TaskId, task: Task)
    requires SharedFlights(s.table) && TaskFlights(s.table, t, task) && IsWait(task.pc)
    ensures var d := WaitDecision(s, task, task.pc);
      && TaskFlights(s.table, t, task.(pc := d.pc))
      && d.table.KeepTable? && d.cache.KeepCache? && d.marks.KeepMarks? && !IsRefresh(d.pc)
  {
    var pc := task.pc;
    var fl := s.table.flights[pc.f];
    assert GoodFlight(fl);
    if pc.WaitRead? && fl.outcome.Completed? {
      ReplyValidates(task, pc.key, fl.outcome.result);
    }
  }

  lemma CheckMove(s: State, t: TaskId, task: Task, now: Time)
    requires TaskFlights(s.table, t, task) && GoodCache(s.cache) && task.pc.CheckCache?
    ensures var d := CheckDecision(s, task, task.pc.key, now);
      && TaskFlights(s.table, t, task.(pc := d.pc))
      && d.table.KeepTable? && !d.cache.WriteCache? && d.marks.KeepMarks? && !IsRefresh(d.pc)
  {
    var key := task.pc.key;
    if s.cache.Some? && Lookup(s.cache.value.items, key).Some? {
      var entry := Lookup(s.cache.value.items, key).value;
      assert Slot(key, entry) in s.cache.value.items;
      var served := Decodes(Aged(entry.message, Elapsed(entry.cachedAt, now), Expired(entry, now), entry.negativeTtl));
      assert Answers(key, served);
      RewrittenAnswerValidates(task.packet, key, served);
    }
  }

  lemma RefreshMove(s: State, t: TaskId, task: Task, spawn: TaskId, newId: nat)
    requires TaskFlights(s.table, t, task) && task.pc.StartRefresh?
    ensures var d := RefreshDecision(s, task, task.pc.key, task.pc.served, spawn, newId);
      && TaskFlights(s.table, t, task.(pc := d.pc))
      && d.table.KeepTable? && d.cache.KeepCache? && !d.marks.Unmark? && !IsRefresh(d.pc)
      && (d.marks.Mark? ==>
            && d.marks.key !in s.refreshing && d.marks.spawn !in s.tasks
            && d.marks.task.pc == RefreshQuery(d.marks.key)
            && TaskFlights(s.table, d.marks.spawn, d.marks.task))
  {
    var key := task.pc.key;
    RewrittenAnswerValidates(task.packet, key, task.pc.served);
    NewIdKeepsKey(task.packet, key, newId);
  }

  lemma EntryMove(s: State, t: TaskId, task: Task, upstream: Option<Result<Packet, ErrorKind>>)
    requires SharedFlights(s.table) && TaskFlights(s.table, t, task)
    requires !HasKeyField(task.pc) || task.pc.Begin?
    ensures var d := EntryDecision(s, task, task.pc, upstream);
      && SharedFlights(DoTable(s.table, d.table, t))
      && TaskFlights(DoTable(s.table, d.table, t), t, task.(pc := d.pc))
      && d.cache.KeepCache? && d.marks.KeepMarks? && !IsRefresh(d.pc)
  {
  }

  lemma BackgroundMove(s: State, t: TaskId, task: Task, upstream: Option<Result<Packet, ErrorKind>>, now: Time)
    requires TaskFlights(s.table, t, task) && IsRefresh(task.pc)
    ensures var d := BackgroundDecision(task, task.pc, upstream, now);
      && TaskFlights(s.table, t, task.(pc := d.pc))
      && (d.cache.WriteCache? ==> Answers(d.cache.key, d.cache.packet))
      && d.table.KeepTable?
      && (if IsRefresh(d.pc) then d.pc.key == task.pc.key && d.marks.KeepMarks? else d.marks == Unmark(task.pc.key))
  {
    if task.pc.RefreshQuery? && upstream.Some? && upstream.value.Ok? && Validates(task.packet, upstream.value.value) {
      ValidatedAnswersKey(task.packet, task.pc.key, upstream.value.value);
    }
  }

  lemma CancelMove(s: State, t: TaskId, task: Task)
    requires SharedFlights(s.table) && TaskFlights(s.table, t, task)
    ensures var d := CancelDecision(task.pc);
      && TaskFlights(s.table, t, task.(pc := d.pc))
      && d == Go(d.pc)
      && (IsRefresh(d.pc) ==> IsRefresh(task.pc) && d.pc.key == task.pc.key)
  {
  }

  /** What a decision may do, seen from outside the task that takes it. */
  ghost predicate Lawful(s: State, t: TaskId, task: Task, d: Decision) {
    && SharedFlights(DoTable(s.table, d.table, t))
    && TaskFlights(DoTable(s.table, d.table, t), t, task.(pc := d.pc))
    && (d.cache.WriteCache? ==> Answers(d.cache.key, d.cache.packet))
    && LawfulTable(s.table, t, task.pc, d)
    && LawfulMarks(s, task.pc, d)
  }

  /** A task opens a flight only for a free key, and settles or removes only the flight it owns. */
  ghost predicate LawfulTable(tb: Table, t: TaskId, pc: Pc, d: Decision) {
    && (d.table.OpenFlight? ==> pc.Begin? && d.table.key !in tb.inFlight && d.pc == OwnerQuery(d.table.key, tb.next))
    && (d.table.SetOutcome? ==> pc.OwnerSet? && pc.f == d.table.f && d.table.outcome == pc.outcome)
    && (d.table.NotifyWaiters? ==> pc.OwnerNotify? && pc.f == d.table.f)
    && (d.table.RemoveFlight? ==> pc.OwnerRemove? && pc.f == d.table.f && pc.key == d.table.key)
    && (IsOwner(pc) ==>
          || (IsOwner(d.pc) && d.pc.f == pc.f && d.pc.key == pc.key)
          || (pc.OwnerRemove? && d.table == RemoveFlight(pc.key, pc.f)))
    && (IsOwner(d.pc) ==> IsOwner(pc) || d.table.OpenFlight?)
  }

  ghost predicate LawfulMarks(s: State, pc: Pc, d: Decision) {
    && (d.marks.Mark? ==>
          && d.marks.key !in s.refreshing && d.marks.spawn !in s.tasks
          && d.marks.task.pc == RefreshQuery(d.marks.key)
          && TaskFlights(s.table, d.marks.spawn, d.marks.task)
          && d.table.KeepTable? && !IsRefresh(pc))
    && (d.marks.Unmark? ==> pc == RefreshEnd(d.marks.key) && !IsRefresh(d.pc))
    && (IsRefresh(pc) ==> if IsRefresh(d.pc) then d.pc.key == pc.key else d.marks == Unmark(pc.key))
    && (IsRefresh(d.pc) ==> IsRefresh(pc))
  }

  /** Program order: what each group of steps does to the flight table. */
  lemma TableOrder(s: State, t: TaskId, task: Task, e: Event)
    ensures LawfulTable(s.table, t, task.pc, Decide(s, task, e))
  {
  }

  lemma MoveIsLawful(s: State, t: TaskId, task: Task, e: Event)
    requires SharedFlights(s.table) && GoodCache(s.cache)
    requires TaskFlights(s.table, t, task)
    ensures Lawful(s, t, task, Decide(s, task, e))
  {
    TableOrder(s, t, task, e);
    match e {
      case Cancel(_) => CancelMove(s, t, task);
      case StartQuery(_, _, _) =>
      case Step(_, upstream, now, spawn, newId) =>
        var pc := task.pc;
        if IsWait(pc) {
          WaitMove(s, t, task);
        } else if IsRefresh(pc) {
          BackgroundMove(s, t, task, upstream, now);
        } else if pc.CheckCache? {
          CheckMove(s, t, task, now);
        } else if pc.StartRefresh? {
          RefreshMove(s, t, task, spawn, newId);
        } else if pc.OwnerQuery? || pc.OwnerStore? {
          QueryMove(s, t, task, upstream, now);
        } else if IsOwner(pc) {
          SettleMove(s, t, task);
        } else {
          EntryMove(s, t, task, upstream);
        }
    }
  }

  // --------------------------------------------------------- interference

  /** No lawful step disturbs another task's flight. */
  lemma FlightsOther(tb: Table, t: TaskId, task: Task, d: Decision, u: TaskId, other: Task)
    requires SharedFlights(tb) && TaskFlights(tb, t, task) && LawfulTable(tb, t, task.pc, d)
    requires u != t && TaskFlights(tb, u, other)
    ensures TaskFlights(DoTable(tb, d.table, t), u, other)
  {
    var tb' := DoTable(tb, d.table, t);
    if IsOwner(other.pc) {
      assert tb'.flights[other.pc.f] == tb.flights[other.pc.f];
      assert other.pc.key in tb'.inFlight && tb'.inFlight[other.pc.key] == tb.inFlight[other.pc.key];
    }
    if IsWait(other.pc) {
      assert tb'.flights[other.pc.f].notified >= tb.flights[other.pc.f].notified;
    }
  }

  lemma CacheStaysGood(c: Option<Cache>, capacity: nat, op: CacheOp)
    requires GoodCache(c) && (op.WriteCache? ==> Answers(op.key, op.packet))
    ensures GoodCache(DoCache(c, capacity, op))
  {
    if c.Some? {
      match op {
        case KeepCache =>
        case ReadCache(key, allowStale, now) =>
          forall s | s in CacheStep(c.value, capacity, Get(key, allowStale, now)).items
            ensures s in c.value.items
          {
          }
        case WriteCache(key, packet, now) =>
          forall s | s in CacheStep(c.value, capacity, Insert(key, packet, now)).items
            ensures s in c.value.items || (s.key == key && s.value.message == packet.message)
          {
          }
      }
    }
  }

  // ------------------------------------------------------------ invariant

  /** The task that opened flight `f` still owns it. */
  ghost predicate Live(tb: Table, tasks: map<TaskId, Task>, f: FlightId)
    requires f in tb.flights
  {
    var t := tb.flights[f].owner;
    t in tasks && IsOwner(tasks[t].pc) && tasks[t].pc.f == f
  }

  /** A flight that is registered, or has not woken its waiters, has a live owner. */
  ghost predicate LiveOwners(tb: Table, tasks: map<TaskId, Task>) {
    forall f :: f in tb.flights ==>
      tb.flights[f].notified == 0 || (tb.flights[f].key in tb.inFlight && tb.inFlight[tb.flights[f].key] == f) ==>
        Live(tb, tasks, f)
  }

  ghost predicate LiveMarks(marks: map<RawKey, TaskId>, tasks: map<TaskId, Task>) {
    forall k :: k in marks ==> marks[k] in tasks && IsRefresh(tasks[marks[k]].pc) && tasks[marks[k]].pc.key == k
  }

  ghost predicate Inv(s: State) {
    && SharedFlights(s.table)
    && GoodCache(s.cache)
    && (forall t :: t in s.tasks ==> TaskFlights(s.table, t, s.tasks[t]) && TaskMarks(s.refreshing, t, s.tasks[t].pc))
    && LiveOwners(s.table, s.tasks)
    && LiveMarks(s.refreshing, s.tasks)
  }

  lemma OwnersStayLive(s: State, t: TaskId, task: Task, d: Decision)
    requires Inv(s) && t in s.tasks && s.tasks[t] == task
    requires LawfulTable(s.table, t, task.pc, d) && LawfulMarks(s, task.pc, d)
    ensures LiveOwners(DoTable(s.table, d.table, t), Spawned(s.tasks[t := task.(pc := d.pc)], d.marks))
  {
    var tb, tb' := s.table, DoTable(s.table, d.table, t);
    var tasks := Spawned(s.tasks[t := task.(pc := d.pc)], d.marks);
    forall f | && f in tb'.flights
               && (|| tb'.flights[f].notified == 0
                   || (tb'.flights[f].key in tb'.inFlight && tb'.inFlight[tb'.flights[f].key] == f))
      ensures Live(tb', tasks, f)
    {
      if f in tb.flights {
        assert tb'.flights[f].owner == tb.flights[f].owner && tb'.flights[f].key == tb.flights[f].key;
        OwnerKept(s, t, task, d, f);
      }
    }
  }

  /** A flight that still needs its owner after a step needed it before. */
  lemma NeededBefore(s: State, t: TaskId, task: Task, d: Decision, f: FlightId)
    requires Inv(s) && t in s.tasks && s.tasks[t] == task && f in s.table.flights
    requires LawfulTable(s.table, t, task.pc, d)
    requires var tb' := DoTable(s.table, d.table, t);
      f in tb'.flights &&
      (tb'.flights[f].notified == 0 || (tb'.flights[f].key in tb'.inFlight && tb'.inFlight[tb'.flights[f].key] == f))
    ensures Live(s.table, s.tasks, f)
    ensures s.table.flights[f].owner == t ==> IsOwner(d.pc) && d.pc.f == f
  {
    var tb, tb' := s.table, DoTable(s.table, d.table, t);
    assert TaskFlights(tb, t, task);
    assert tb'.flights[f].notified == 0 ==> tb.flights[f].notified == 0;
    if d.table.OpenFlight? {
      assert tb'.inFlight[d.table.key] == tb.next;
    }
  }

  lemma OwnerKept(s: State, t: TaskId, task: Task, d: Decision, f: FlightId)
    requires Inv(s) && t in s.tasks && s.tasks[t] == task && f in s.table.flights
    requires LawfulTable(s.table, t, task.pc, d) && LawfulMarks(s, task.pc, d)
    requires var tb' := DoTable(s.table, d.table, t);
      f in tb'.flights &&
      (tb'.flights[f].notified == 0 || (tb'.flights[f].key in tb'.inFlight && tb'.inFlight[tb'.flights[f].key] == f))
    ensures Live(DoTable(s.table, d.table, t), Spawned(s.tasks[t := task.(pc := d.pc)], d.marks), f)
  {
    NeededBefore(s, t, task, d, f);
    assert DoTable(s.table, d.table, t).flights[f].owner == s.table.flights[f].owner by {
      assert f < s.table.next;
    }
  }

  lemma MarkStaysLive(s: State, t: TaskId, task: Task, d: Decision, k: RawKey)
    requires Inv(s) && t in s.tasks && s.tasks[t] == task && LawfulMarks(s, task.pc, d)
    requires k in DoMarks(s.refreshing, d.marks)
    ensures var u := DoMarks(s.refreshing, d.marks)[k]; var tasks := Spawned(s.tasks[t := task.(pc := d.pc)], d.marks);
      u in tasks && IsRefresh(tasks[u].pc) && tasks[u].pc.key == k
  {
    assert TaskMarks(s.refreshing, t, task.pc);
    if d.marks.Mark? && k == d.marks.key {
    } else {
      var u := s.refreshing[k];
      assert u in s.tasks && IsRefresh(s.tasks[u].pc) && s.tasks[u].pc.key == k;
    }
  }

  lemma MarksStayLive(s: State, t: TaskId, task: Task, d: Decision)
    requires Inv(s) && t in s.tasks && s.tasks[t] == task && LawfulMarks(s, task.pc, d)
    ensures LiveMarks(DoMarks(s.refreshing, d.marks), Spawned(s.tasks[t := task.(pc := d.pc)], d.marks))
  {
    forall k | k in DoMarks(s.refreshing, d.marks)
      ensures var u := DoMarks(s.refreshing, d.marks)[k];
        var tasks := Spawned(s.tasks[t := task.(pc := d.pc)], d.marks);
        u in tasks && IsRefresh(tasks[u].pc) && tasks[u].pc.key == k
    {
      MarkStaysLive(s, t, task, d, k);
    }
  }

  lemma MarksStayHeld(s: State, t: TaskId, task: Task, d: Decision, u: TaskId)
    requires Inv(s) && t in s.tasks && s.tasks[t] == task && LawfulMarks(s, task.pc, d)
    ensures var tasks := Spawned(s.tasks[t := task.(pc := d.pc)], d.marks);
      u in tasks ==> TaskMarks(DoMarks(s.refreshing, d.marks), u, tasks[u].pc)
  {
    assert TaskMarks(s.refreshing, t, task.pc);
    assert u in s.tasks ==> TaskMarks(s.refreshing, u, s.tasks[u].pc);
  }

  lemma InvMove(s: State, t: TaskId, e: Event, d: Decision)
    requires Inv(s) && t in s.tasks && d == Decide(s, s.tasks[t], e)
    ensures Inv(Perform(s, t, s.tasks[t], d))
  {
    var task := s.tasks[t];
    var s' := Perform(s, t, task, d);
    MoveIsLawful(s, t, task, e);
    CacheStaysGood(s.cache, s.capacity, d.cache);
    OwnersStayLive(s, t, task, d);
    MarksStayLive(s, t, task, d);
    forall u | u in s'.tasks
      ensures TaskFlights(s'.table, u, s'.tasks[u]) && TaskMarks(s'.refreshing, u, s'.tasks[u].pc)
    {
      MarksStayHeld(s, t, task, d, u);
      if d.marks.Mark? && u == d.marks.spawn {
        assert s'.table == s.table;
      } else if u != t {
        FlightsOther(s.table, t, task, d, u, s.tasks[u]);
      }
    }
  }

  lemma InvStep(s: State, e: Event)
    requires Inv(s)
    ensures Inv(Apply(s, e))
  {
    if e.StartQuery? {
    } else if e.t in s.tasks {
      InvMove(s, e.t, e, Decide(s, s.tasks[e.t], e));
    }
  }

  lemma {:induction false} InvRun(s: State, events: seq<Event>)
    requires Inv(s)
    ensures Inv(Run(s, events))
  {
    if events != [] {
      InvRun(s, events[..|events| - 1]);
      InvStep(Run(s, events[..|events| - 1]), events[|events| - 1]);
    }
  }

  // ------------------------------------------------------------- theorems

  lemma Reachable(cached: bool, capacity: nat, events: seq<Event>)
    ensures Inv(Run(Init(cached, capacity), events))
  {
    InvRun(Init(cached, capacity), events);
  }

  /** Every successful reply, on every path, is a valid response to the caller's own packet. */
  lemma RepliesValidate(cached: bool, capacity: nat, events: seq<Event>, t: TaskId)
    ensures var s := Run(Init(cached, capacity), events);
      t in s.tasks && s.tasks[t].pc.Replied? && s.tasks[t].pc.reply.Ok? ==>
        Validates(s.tasks[t].packet, s.tasks[t].pc.reply.value)
  {
    Reachable(cached, capacity, events);
  }

  /** At most one live owner per key. */
  lemma OneOwnerPerKey(cached: bool, capacity: nat, events: seq<Event>, t: TaskId, u: TaskId)
    ensures var s := Run(Init(cached, capacity), events);
      (t in s.tasks && u in s.tasks && IsOwner(s.tasks[t].pc) && IsOwner(s.tasks[u].pc) &&
       s.tasks[t].pc.key == s.tasks[u].pc.key) ==> t == u
  {
    Reachable(cached, capacity, events);
    var s := Run(Init(cached, capacity), events);
    if t in s.tasks && u in s.tasks {
      assert TaskFlights(s.table, t, s.tasks[t]) && TaskFlights(s.table, u, s.tasks[u]);
    }
  }

  predicate OnFlight(pc: Pc, f: FlightId) {
    (IsOwner(pc) || IsWait(pc)) && pc.f == f
  }

  /** Whoever meets on one flight asked the same question, up to id and name case. */
  lemma FlightsShareOneRequest(cached: bool, capacity: nat, events: seq<Event>, t: TaskId, u: TaskId, f: FlightId)
    ensures var s := Run(Init(cached, capacity), events);
      t in s.tasks && u in s.tasks && OnFlight(s.tasks[t].pc, f) && OnFlight(s.tasks[u].pc, f) ==>
        && s.tasks[t].packet.Decodes? && s.tasks[u].packet.Decodes?
        && SameRequest(s.tasks[t].packet.message, s.tasks[u].packet.message)
  {
    Reachable(cached, capacity, events);
    var s := Run(Init(cached, capacity), events);
    if t in s.tasks && u in s.tasks && OnFlight(s.tasks[t].pc, f) && OnFlight(s.tasks[u].pc, f) {
      assert TaskFlights(s.table, t, s.tasks[t]) && TaskFlights(s.table, u, s.tasks[u]);
      SharedKeyIffSameRequest(s.tasks[t].packet, s.tasks[u].packet, s.tasks[t].pc.key, s.tasks[u].pc.key);
    }
  }

  /** At most one background refresh per key is alive, and it holds the key's mark. */
  lemma OneRefreshPerKey(cached: bool, capacity: nat, events: seq<Event>, t: TaskId, u: TaskId)
    ensures var s := Run(Init(cached, capacity), events);
      t in s.tasks && IsRefresh(s.tasks[t].pc) ==>
        && s.tasks[t].pc.key in s.refreshing && s.refreshing[s.tasks[t].pc.key] == t
        && (u in s.tasks && IsRefresh(s.tasks[u].pc) && s.tasks[u].pc.key == s.tasks[t].pc.key ==> u == t)
  {
    Reachable(cached, capacity, events);
    var s := Run(Init(cached, capacity), events);
    if t in s.tasks && u in s.tasks {
      assert TaskMarks(s.refreshing, t, s.tasks[t].pc) && TaskMarks(s.refreshing, u, s.tasks[u].pc);
    }
  }

  lemma SettledStep(s: State, e: Event, f: FlightId)
    requires Inv(s) && f in s.table.flights && !s.table.flights[f].outcome.Pending?
    ensures var tb' := Apply(s, e).table;
      f in tb'.flights && tb'.flights[f].outcome == s.table.flights[f].outcome
  {
    if !e.StartQuery? && e.t in s.tasks {
      assert TaskFlights(s.table, e.t, s.tasks[e.t]);
      TableOrder(s, e.t, s.tasks[e.t], e);
      SettledTable(s.table, e.t, s.tasks[e.t], Decide(s, s.tasks[e.t], e), f);
    }
  }

  lemma SettledTable(tb: Table, t: TaskId, task: Task, d: Decision, f: FlightId)
    requires SharedFlights(tb) && TaskFlights(tb, t, task) && LawfulTable(tb, t, task.pc, d)
    requires f in tb.flights && !tb.flights[f].outcome.Pending?
    ensures var tb' := DoTable(tb, d.table, t); f in tb'.flights && tb'.flights[f].outcome == tb.flights[f].outcome
  {
  }

  /** A flight's outcome is set at most once: once settled, no continuation changes it. */
  lemma {:induction false} OutcomeSettlesOnce(cached: bool, capacity: nat, before: seq<Event>, after: seq<Event>,
                                              f: FlightId)
    requires var s := Run(Init(cached, capacity), before);
      f in s.table.flights && !s.table.flights[f].outcome.Pending?
    ensures var s := Run(Init(cached, capacity), before); var tb' := Run(s, after).table;
      f in tb'.flights && tb'.flights[f].outcome == s.table.flights[f].outcome
    decreases |after|
  {
    var s := Run(Init(cached, capacity), before);
    if after != [] {
      var init := after[..|after| - 1];
      OutcomeSettlesOnce(cached, capacity, before, init, f);
      Reachable(cached, capacity, before);
      InvRun(s, init);
      SettledStep(Run(s, init), after[|after| - 1], f);
    }
  }

  /** ... and at least once: an owner that has left its flight has settled it. */
  lemma DepartedOwnersSettled(cached: bool, capacity: nat, events: seq<Event>, f: FlightId)
    ensures var s := Run(Init(cached, capacity), events);
      f in s.table.flights && !Live(s.table, s.tasks, f) ==>
        !s.table.flights[f].outcome.Pending? && s.table.flights[f].notified == 1
  {
    Reachable(cached, capacity, events);
  }

  lemma RemovalIsOwn(tb: Table, t: TaskId, task: Task, d: Decision, key: RawKey)
    requires SharedFlights(tb) && TaskFlights(tb, t, task) && LawfulTable(tb, t, task.pc, d)
    requires key in tb.inFlight && key !in DoTable(tb, d.table, t).inFlight
    ensures d.table.RemoveFlight? && task.pc.OwnerRemove? && task.pc.key == key && task.pc.f == tb.inFlight[key]
    ensures tb.inFlight[key] in tb.flights && tb.flights[tb.inFlight[key]].owner == t
  {
  }

  /** A key leaves the in-flight table only by the cleanup step of the task that owns its flight. */
  lemma CleanupRemovesOwnFlight(cached: bool, capacity: nat, events: seq<Event>, e: Event, key: RawKey)
    ensures var s := Run(Init(cached, capacity), events);
      key in s.table.inFlight && key !in Apply(s, e).table.inFlight ==>
        && e.Step? && e.t in s.tasks && s.tasks[e.t].pc.OwnerRemove?
        && s.tasks[e.t].pc.key == key && s.tasks[e.t].pc.f == s.table.inFlight[key]
        && s.table.inFlight[key] in s.table.flights && s.table.flights[s.table.inFlight[key]].owner == e.t
  {
    Reachable(cached, capacity, events);
    var s := Run(Init(cached, capacity), events);
    if key in s.table.inFlight && key !in Apply(s, e).table.inFlight {
      RemovalStep(s, e, key);
    }
  }

  lemma RemovalStep(s: State, e: Event, key: RawKey)
    requires Inv(s) && key in s.table.inFlight && key !in Apply(s, e).table.inFlight
    ensures e.Step? && e.t in s.tasks && s.tasks[e.t].pc.OwnerRemove?
    ensures s.tasks[e.t].pc.key == key && s.tasks[e.t].pc.f == s.table.inFlight[key]
    ensures s.table.inFlight[key] in s.table.flights && s.table.flights[s.table.inFlight[key]].owner == e.t
  {
    var d := Decide(s, s.tasks[e.t], e);
    assert TaskFlights(s.table, e.t, s.tasks[e.t]);
    TableOrder(s, e.t, s.tasks[e.t], e);
    RemovalIsOwn(s.table, e.t, s.tasks[e.t], d, key);
  }

  /**
   * No lost wake-up: behind a parked follower that has not been notified
   * there is a live owner, and either the outcome is still pending or the
   * owner's next step is the notification.
   */
  lemma NoLostWakeup(cached: bool, capacity: nat, events: seq<Event>, t: TaskId)
    ensures var s := Run(Init(cached, capacity), events);
      t in s.tasks && s.tasks[t].pc.WaitPark? ==>
        var f := s.tasks[t].pc.f;
        && f in s.table.flights
        && (s.table.flights[f].notified <= s.tasks[t].pc.seen ==>
              && Live(s.table, s.tasks, f)
              && (s.table.flights[f].outcome.Pending? || s.tasks[s.table.flights[f].owner].pc.OwnerNotify?))
  {
    Reachable(cached, capacity, events);
    var s := Run(Init(cached, capacity), events);
    if t in s.tasks && s.tasks[t].pc.WaitPark? {
      var f := s.tasks[t].pc.f;
      assert TaskFlights(s.table, t, s.tasks[t]);
      if s.table.flights[f].notified == 0 {
        assert Live(s.table, s.tasks, f);
        var o := s.table.flights[f].owner;
        assert TaskFlights(s.table, o, s.tasks[o]);
      }
    }
  }

  // ------------------------------------------------------------- progress

  /** How far an owner is from waking its waiters. */
  function Distance(pc: Pc): nat {
    match pc
    case OwnerQuery(_, _) => 3
    case OwnerStore(_, _, _) => 3
    case OwnerSet(_, _, _) => 2
    case OwnerNotify(_, _, _) => 1
    case _ => 0
  }

  /** The next owner step towards waking the waiters: a running query is dropped, everything else proceeds. */
  function Advance(t: TaskId, pc: Pc): Event {
    if pc.OwnerQuery? then Cancel(t) else Step(t, None, 0, 0, 0)
  }

  lemma AdvanceDecides(s: State, t: TaskId, task: Task)
    requires IsOwner(task.pc)
    ensures var d := Decide(s, task, Advance(t, task.pc));
      && d.marks.KeepMarks?
      && (match task.pc
          case OwnerNotify(_, f, _) => d.table == NotifyWaiters(f)
          case OwnerRemove(_, _, _) => true
          case _ => IsOwner(d.pc) && d.pc.f == task.pc.f && Distance(d.pc) < Distance(task.pc) &&
                    !d.table.NotifyWaiters? && !d.table.RemoveFlight? && !d.table.OpenFlight?)
  {
  }

  lemma OwnerAdvances(s: State, f: FlightId)
    requires Inv(s) && f in s.table.flights && s.table.flights[f].notified == 0
    ensures Live(s.table, s.tasks, f)
    ensures var o := s.table.flights[f].owner; var s' := Apply(s, Advance(o, s.tasks[o].pc));
      && f in s'.table.flights && s'.table.flights[f].owner == o
      && (s'.table.flights[f].notified == 0 ==> o in s'.tasks && Distance(s'.tasks[o].pc) < Distance(s.tasks[o].pc))
      && (forall u :: u in s.tasks && u != o ==> u in s'.tasks && s'.tasks[u] == s.tasks[u])
  {
    assert Live(s.table, s.tasks, f);
    var o := s.table.flights[f].owner;
    assert TaskFlights(s.table, o, s.tasks[o]);
    OwnerPerforms(s, o, s.tasks[o], f, Decide(s, s.tasks[o], Advance(o, s.tasks[o].pc)));
  }

  lemma OwnerPerforms(s: State, o: TaskId, task: Task, f: FlightId, d: Decision)
    requires IsOwner(task.pc) && task.pc.f == f && Owns(s.table, o, task.pc) && s.table.flights[f].notified == 0
    requires d == Decide(s, task, Advance(o, task.pc))
    ensures var s' := Perform(s, o, task, d);
      && f in s'.table.flights && s'.table.flights[f].owner == s.table.flights[f].owner
      && s'.tasks == s.tasks[o := task.(pc := d.pc)]
      && (s'.table.flights[f].notified == 0 ==> Distance(d.pc) < Distance(task.pc))
  {
    AdvanceDecides(s, o, task);
    AdvancePerforms(s, o, task, d);
  }

  lemma AdvancePerforms(s: State, o: TaskId, task: Task, d: Decision)
    requires d.marks.KeepMarks? && !d.table.OpenFlight?
    ensures var s' := Perform(s, o, task, d);
      && s'.tasks == s.tasks[o := task.(pc := d.pc)]
      && s'.table.flights.Keys == s.table.flights.Keys
      && (forall f :: f in s.table.flights ==> s'.table.flights[f].owner == s.table.flights[f].owner)
      && (forall f :: f in s.table.flights && d.table == NotifyWaiters(f) ==>
            s'.table.flights[f].notified == s.table.flights[f].notified + 1)
  {
  }

  lemma {:induction false} RunConcat(s: State, a: seq<Event>, b: seq<Event>)
    ensures Run(s, a + b) == Run(Run(s, a), b)
  {
    if b == [] {
      assert a + b == a;
    } else {
      RunConcat(s, a, b[..|b| - 1]);
      assert (a + b)[..|a + b| - 1] == a + b[..|b| - 1];
    }
  }

  lemma RunOne(s: State, e: Event)
    ensures Run(s, [e]) == Apply(s, e)
  {
    assert [e][..0] == [];
  }

  /** From any reachable state, the owner alone can wake its waiters in at most three steps. */
  lemma SettleFlight(s: State, f: FlightId) returns (events: seq<Event>)
    requires Inv(s) && f in s.table.flights
    ensures var s' := Run(s, events);
      && Inv(s') && f in s'.table.flights && s'.table.flights[f].notified == 1
      && (s.table.flights[f].notified == 1 ==> s' == s)
      && (forall u :: u in s.tasks && u != s.table.flights[f].owner ==> u in s'.tasks && s'.tasks[u] == s.tasks[u])
    decreases if s.table.flights[f].notified == 0 && s.table.flights[f].owner in s.tasks
              then Distance(s.tasks[s.table.flights[f].owner].pc) + 1 else 0
  {
    if s.table.flights[f].notified != 0 {
      events := [];
    } else {
      var o := s.table.flights[f].owner;
      OwnerAdvances(s, f);
      var e := Advance(o, s.tasks[o].pc);
      InvStep(s, e);
      var rest := SettleFlight(Apply(s, e), f);
      events := [e] + rest;
      RunOne(s, e);
      RunConcat(s, [e], rest);
    }
  }

  /** How far a follower is from reading the outcome. */
  function ToRead(pc: Pc): nat {
    match pc
    case WaitPark(_, _, _) => 2
    case WaitRegister(_, _) => 1
    case _ => 0
  }

  lemma WokenFollowerMoves(s: State, t: TaskId, f: FlightId)
    requires Inv(s) && t in s.tasks && IsWait(s.tasks[t].pc) && s.tasks[t].pc.f == f
    requires f in s.table.flights && s.table.flights[f].notified == 1
    ensures var s' := Apply(s, Step(t, None, 0, 0, 0)); var pc := s.tasks[t].pc;
      && t in s'.tasks && s'.table == s.table
      && (if pc.WaitRead? then s'.tasks[t].pc.Replied? || s'.tasks[t].pc.CheckCache?
          else IsWait(s'.tasks[t].pc) && s'.tasks[t].pc.f == f && ToRead(s'.tasks[t].pc) < ToRead(pc))
  {
    assert TaskFlights(s.table, t, s.tasks[t]) && GoodFlight(s.table.flights[f]);
  }

  /** A woken follower leaves its flight in at most three of its own steps. */
  lemma WokenFollowerLeaves(s: State, t: TaskId) returns (events: seq<Event>)
    requires Inv(s) && t in s.tasks && IsWait(s.tasks[t].pc)
    requires s.tasks[t].pc.f in s.table.flights && s.table.flights[s.tasks[t].pc.f].notified == 1
    ensures var s' := Run(s, events); t in s'.tasks && (s'.tasks[t].pc.Replied? || s'.tasks[t].pc.CheckCache?)
    decreases ToRead(s.tasks[t].pc)
  {
    var e := Step(t, None, 0, 0, 0);
    WokenFollowerMoves(s, t, s.tasks[t].pc.f);
    InvStep(s, e);
    RunOne(s, e);
    if s.tasks[t].pc.WaitRead? {
      events := [e];
    } else {
      var rest := WokenFollowerLeaves(Apply(s, e), t);
      events := [e] + rest;
      RunConcat(s, [e], rest);
    }
  }

  lemma FollowerLeaves(s: State, t: TaskId) returns (events: seq<Event>)
    requires Inv(s) && t in s.tasks && IsWait(s.tasks[t].pc)
    ensures var s' := Run(s, events); t in s'.tasks && (s'.tasks[t].pc.Replied? || s'.tasks[t].pc.CheckCache?)
  {
    assert TaskFlights(s.table, t, s.tasks[t]);
    var f := s.tasks[t].pc.f;
    OwnerIsNotWaiting(s, f, t);
    var settle := SettleFlight(s, f);
    var leave := WokenFollowerLeaves(Run(s, settle), t);
    RunConcat(s, settle, leave);
    events := settle + leave;
  }

  lemma OwnerIsNotWaiting(s: State, f: FlightId, t: TaskId)
    requires Inv(s) && f in s.table.flights && t in s.tasks && IsWait(s.tasks[t].pc)
    ensures s.table.flights[f].notified == 1 || s.table.flights[f].owner != t
  {
    assert GoodFlight(s.table.flights[f]);
    if s.table.flights[f].notified == 0 {
      assert Live(s.table, s.tasks, f);
    }
  }

  ghost predicate Left(s: State, t: TaskId) {
    t in s.tasks && (s.tasks[t].pc.Replied? || s.tasks[t].pc.CheckCache?)
  }

  /** No follower is ever stranded: from every reachable state some continuation lets it leave its flight. */
  lemma NoFollowerIsStranded(cached: bool, capacity: nat, events: seq<Event>, t: TaskId)
    requires var s := Run(Init(cached, capacity), events); t in s.tasks && IsWait(s.tasks[t].pc)
    ensures exists more :: Left(Run(Run(Init(cached, capacity), events), more), t)
  {
    var s := Run(Init(cached, capacity), events);
    Reachable(cached, capacity, events);
    var more := FollowerLeaves(s, t);
    assert Left(Run(s, more), t);
  }

  // ------------------------------------------ leaving, whatever the others do

  /** How many steps `t` takes in a run. */
  function Steps(events: seq<Event>, t: TaskId): nat {
    if events == [] then 0
    else
      var e := events[|events| - 1];
      Steps(events[..|events| - 1], t) + if e.Step? && e.t == t then 1 else 0
  }

  /** Steps the owner of a settled flight has left: notify, deregister. */
  ghost function OwnerWork(tb: Table, tasks: map<TaskId, Task>, f: FlightId): nat {
    if f !in tb.flights || !Live(tb, tasks, f) then 0
    else if tasks[tb.flights[f].owner].pc.OwnerRemove? then 1
    else 2
  }

  /** Steps a follower of flight `f` has left once it is woken: wake, register, read. */
  function FollowerWork(pc: Pc, f: FlightId): nat {
    if !IsWait(pc) || pc.f != f then 0
    else if pc.WaitPark? then 3
    else if pc.WaitRegister? then 2
    else 1
  }

  ghost predicate Settled(tb: Table, f: FlightId) {
    f in tb.flights && !tb.flights[f].outcome.Pending?
  }

  /** The waiters were woken and nobody can join any more. */
  ghost predicate Deregistered(tb: Table, f: FlightId) {
    && f in tb.flights && tb.flights[f].notified == 1
    && !(tb.flights[f].key in tb.inFlight && tb.inFlight[tb.flights[f].key] == f)
  }

  lemma SettledOwnerPhase(s: State, f: FlightId)
    requires Inv(s) && Settled(s.table, f) && Live(s.table, s.tasks, f)
    ensures var pc := s.tasks[s.table.flights[f].owner].pc; pc.OwnerNotify? || pc.OwnerRemove?
  {
    var o := s.table.flights[f].owner;
    assert TaskFlights(s.table, o, s.tasks[o]);
  }

  lemma WorkDoneIsDeregistered(s: State, f: FlightId)
    requires Inv(s) && Settled(s.table, f) && OwnerWork(s.table, s.tasks, f) == 0
    ensures Deregistered(s.table, f)
  {
    assert GoodFlight(s.table.flights[f]);
  }

  /** What the owner's own step does to its work. */
  lemma OwnerStepWorks(packet: Packet, pc: Pc)
    requires pc.OwnerNotify? || pc.OwnerRemove?
    ensures var d := SettleDecision(packet, pc);
      && d.marks.KeepMarks?
      && (pc.OwnerNotify? ==> d.pc.OwnerRemove? && d.pc.f == pc.f)
      && (pc.OwnerRemove? ==> !IsOwner(d.pc))
  {
  }

  lemma OwnerWorkStep(s: State, e: Event, f: FlightId)
    requires Inv(s) && Settled(s.table, f)
    ensures var s' := Apply(s, e); var o := s.table.flights[f].owner;
      && Settled(s'.table, f) && s'.table.flights[f].owner == o
      && OwnerWork(s'.table, s'.tasks, f) <= OwnerWork(s.table, s.tasks, f)
      && (e.Step? && e.t == o && OwnerWork(s.table, s.tasks, f) > 0 ==>
            OwnerWork(s'.table, s'.tasks, f) < OwnerWork(s.table, s.tasks, f))
  {
    SettledStep(s, e, f);
    SameOwner(s, e, f);
    var o := s.table.flights[f].owner;
    if !e.StartQuery? && e.t in s.tasks {
      if e.t == o {
        if Live(s.table, s.tasks, f) {
          SettledOwnerPhase(s, f);
          OwnerMoves(s, e, f);
        } else {
          DepartedStays(s, e, f);
        }
      } else {
        OthersKept(s, e, o);
      }
    }
  }

  lemma SameOwner(s: State, e: Event, f: FlightId)
    requires Inv(s) && f in s.table.flights
    ensures f in Apply(s, e).table.flights && Apply(s, e).table.flights[f].owner == s.table.flights[f].owner
  {
    if !e.StartQuery? && e.t in s.tasks {
      OwnerFixed(s.table, Decide(s, s.tasks[e.t], e).table, e.t, f);
    }
  }

  lemma OwnerFixed(tb: Table, op: TableOp, t: TaskId, f: FlightId)
    requires SharedFlights(tb) && f in tb.flights
    ensures f in DoTable(tb, op, t).flights && DoTable(tb, op, t).flights[f].owner == tb.flights[f].owner
  {
  }

  /** A step changes no task but its own, and at most starts a refresh. */
  lemma OthersKept(s: State, e: Event, u: TaskId)
    requires Inv(s) && !e.StartQuery? && e.t in s.tasks && e.t != u
    ensures u in s.tasks ==> u in Apply(s, e).tasks && Apply(s, e).tasks[u] == s.tasks[u]
    ensures u !in s.tasks && u in Apply(s, e).tasks ==> Apply(s, e).tasks[u].pc.RefreshQuery?
  {
    var task := s.tasks[e.t];
    assert TaskFlights(s.table, e.t, task);
    MoveIsLawful(s, e.t, task, e);
    SpawnedKeeps(s.tasks[e.t := task.(pc := Decide(s, task, e).pc)], Decide(s, task, e).marks, u);
  }

  lemma SpawnedKeeps(tasks: map<TaskId, Task>, op: RefreshOp, u: TaskId)
    requires op.Mark? ==> op.task.pc.RefreshQuery?
    ensures u in tasks && !(op.Mark? && op.spawn == u) ==> u in Spawned(tasks, op) && Spawned(tasks, op)[u] == tasks[u]
    ensures u !in tasks && u in Spawned(tasks, op) ==> Spawned(tasks, op)[u].pc.RefreshQuery?
  {
  }

  lemma OwnerMoves(s: State, e: Event, f: FlightId)
    requires Inv(s) && Settled(s.table, f) && Live(s.table, s.tasks, f)
    requires !e.StartQuery? && e.t == s.table.flights[f].owner
    requires s.tasks[e.t].pc.OwnerNotify? || s.tasks[e.t].pc.OwnerRemove?
    ensures var pc' := Apply(s, e).tasks[e.t].pc; var pc := s.tasks[e.t].pc;
      && e.t in Apply(s, e).tasks
      && (e.Step? && pc.OwnerNotify? ==> pc'.OwnerRemove? && pc'.f == f)
      && (e.Step? && pc.OwnerRemove? ==> !IsOwner(pc'))
      && (e.Cancel? ==> pc' == pc)
  {
    OwnerStepWorks(s.tasks[e.t].packet, s.tasks[e.t].pc);
  }

  /** A task that no longer owns a flight never owns it again. */
  lemma DepartedStays(s: State, e: Event, f: FlightId)
    requires Inv(s) && f in s.table.flights && !Live(s.table, s.tasks, f)
    requires !e.StartQuery? && e.t in s.tasks && e.t == s.table.flights[f].owner
    ensures f in Apply(s, e).table.flights ==> !Live(Apply(s, e).table, Apply(s, e).tasks, f)
  {
    var task := s.tasks[e.t];
    assert TaskFlights(s.table, e.t, task);
    SameOwner(s, e, f);
    MoveIsLawful(s, e.t, task, e);
    var d := Decide(s, task, e);
    assert IsOwner(d.pc) ==> d.pc.f != f;
    SpawnedKeeps(s.tasks[e.t := task.(pc := d.pc)], d.marks, e.t);
  }

  lemma {:induction false} OwnerWorkRun(s: State, events: seq<Event>, f: FlightId)
    requires Inv(s) && Settled(s.table, f)
    ensures var s' := Run(s, events); var o := s.table.flights[f].owner;
      && Inv(s') && Settled(s'.table, f) && s'.table.flights[f].owner == o
      && OwnerWork(s'.table, s'.tasks, f) <= (if Steps(events, o) >= 2 then 0 else 2 - Steps(events, o))
  {
    if events != [] {
      var front := events[..|events| - 1];
      OwnerWorkRun(s, front, f);
      InvStep(Run(s, front), events[|events| - 1]);
      OwnerWorkStep(Run(s, front), events[|events| - 1], f);
    }
  }

  lemma DeregisteredStep(s: State, e: Event, f: FlightId)
    requires Inv(s) && Deregistered(s.table, f)
    ensures Deregistered(Apply(s, e).table, f)
  {
    if !e.StartQuery? && e.t in s.tasks {
      var task := s.tasks[e.t];
      assert TaskFlights(s.table, e.t, task);
      TableOrder(s, e.t, task, e);
      DeregisteredTable(s.table, e.t, task, Decide(s, task, e), f);
    }
  }

  lemma DeregisteredTable(tb: Table, t: TaskId, task: Task, d: Decision, f: FlightId)
    requires SharedFlights(tb) && TaskFlights(tb, t, task) && LawfulTable(tb, t, task.pc, d) && Deregistered(tb, f)
    ensures Deregistered(DoTable(tb, d.table, t), f)
  {
  }

  /** On a flight that is over, a follower's own step always gets it further, and nothing sets it back. */
  lemma FollowerDecides(s: State, task: Task, t: TaskId, e: Event, f: FlightId)
    requires SharedFlights(s.table) && TaskFlights(s.table, t, task) && Deregistered(s.table, f)
    ensures var d := Decide(s, task, e);
      && FollowerWork(d.pc, f) <= FollowerWork(task.pc, f)
      && (e.Step? && FollowerWork(task.pc, f) > 0 ==> FollowerWork(d.pc, f) < FollowerWork(task.pc, f))
  {
    assert GoodFlight(s.table.flights[f]);
    if e.Step? && IsWait(task.pc) {
      assert Decide(s, task, e) == WaitDecision(s, task, task.pc);
    } else {
      JoinsRegistered(s, task, e);
    }
  }

  lemma JoinsRegistered(s: State, task: Task, e: Event)
    requires !(e.Step? && IsWait(task.pc))
    ensures var d := Decide(s, task, e);
      IsWait(d.pc) ==> d.pc == task.pc || (d.pc.key in s.table.inFlight && s.table.inFlight[d.pc.key] == d.pc.f)
  {
  }

  ghost function WorkOf(tasks: map<TaskId, Task>, t: TaskId, f: FlightId): nat {
    if t in tasks then FollowerWork(tasks[t].pc, f) else 0
  }

  lemma FollowerWorkStep(s: State, e: Event, t: TaskId, f: FlightId)
    requires Inv(s) && Deregistered(s.table, f)
    ensures var s' := Apply(s, e);
      && WorkOf(s'.tasks, t, f) <= WorkOf(s.tasks, t, f)
      && (e.Step? && e.t == t && WorkOf(s.tasks, t, f) > 0 ==> WorkOf(s'.tasks, t, f) < WorkOf(s.tasks, t, f))
  {
    if !e.StartQuery? && e.t in s.tasks {
      if e.t == t {
        var task := s.tasks[t];
        assert TaskFlights(s.table, t, task);
        FollowerDecides(s, task, t, e, f);
        MoveIsLawful(s, t, task, e);
        SpawnedKeeps(s.tasks[t := task.(pc := Decide(s, task, e).pc)], Decide(s, task, e).marks, t);
      } else {
        OthersKept(s, e, t);
      }
    }
  }

  lemma {:induction false} FollowerWorkRun(s: State, events: seq<Event>, t: TaskId, f: FlightId)
    requires Inv(s) && Deregistered(s.table, f)
    ensures var s' := Run(s, events);
      && Inv(s') && Deregistered(s'.table, f)
      && WorkOf(s'.tasks, t, f) <= (if Steps(events, t) >= 3 then 0 else 3 - Steps(events, t))
  {
    if events != [] {
      var front, e := events[..|events| - 1], events[|events| - 1];
      FollowerWorkRun(s, front, t, f);
      InvStep(Run(s, front), e);
      DeregisteredStep(Run(s, front), e, f);
      FollowerWorkStep(Run(s, front), e, t, f);
    }
  }

  /**
   * Under every interleaving: once a flight is settled, two steps of its
   * owner and then three steps of a follower take that follower off the
   * flight, and it never comes back to it.
   */
  lemma SettledFlightIsLeft(cached: bool, capacity: nat, before: seq<Event>, more: seq<Event>, rest: seq<Event>,
                            f: FlightId, t: TaskId)
    requires var s := Run(Init(cached, capacity), before);
      Settled(s.table, f) && Steps(more, s.table.flights[f].owner) >= 2 && Steps(rest, t) >= 3
    ensures var s := Run(Run(Run(Init(cached, capacity), before), more), rest);
      t in s.tasks ==> !(IsWait(s.tasks[t].pc) && s.tasks[t].pc.f == f)
  {
    var s := Run(Init(cached, capacity), before);
    Reachable(cached, capacity, before);
    OwnerWorkRun(s, more, f);
    WorkDoneIsDeregistered(Run(s, more), f);
    FollowerWorkRun(Run(s, more), rest, t, f);
  }
}
