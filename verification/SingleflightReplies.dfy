/** Where every reply comes from: the answers upstream gave, the cache history, and the refreshes they start. */
module SingleflightReplies {
  import opened Common
  import opened DnsMessages
  import opened DnsCaches
  import opened LruMaps
  import opened Singleflight
  import opened SingleflightSafety

  // --------------------------------------------------------------- the answers

  /** Who asked upstream: a task for everybody with its key, or a task for itself alone. */
  datatype Asker = Keyed(key: RawKey) | Direct(t: TaskId)

  type Given = set<(Asker, Result<Packet, ErrorKind>)>

  /** What upstream hands over in this step. */
  function Supplies(s: State, e: Event): Given {
    if e.Step? && e.upstream.Some? && e.t in s.tasks then
      match s.tasks[e.t].pc
      case OwnerQuery(key, _) => {(Keyed(key), e.upstream.value)}
      case RefreshQuery(key) => {(Keyed(key), e.upstream.value)}
      case Bypass => {(Direct(e.t), e.upstream.value)}
      case _ => {}
    else {}
  }

  function GivenBy(cached: bool, capacity: nat, events: seq<Event>): Given {
    if events == [] then {}
    else
      var past := events[..|events| - 1];
      GivenBy(cached, capacity, past) + Supplies(Run(Init(cached, capacity), past), events[|events| - 1])
  }

  // ------------------------------------------------------------ where a reply is from

  /** An answer for this key that does not validate against some request with the key. */
  ghost predicate RejectedFor(g: Given, key: RawKey, p: Packet, q: Packet) {
    (Keyed(key), Ok(p)) in g && HasKey(q, key) && !Validates(q, p)
  }

  /** A result shared under a key: upstream's answer, upstream's error, or the refusal of an answer. */
  ghost predicate SharedFrom(g: Given, key: RawKey, result: Result<Packet, ErrorKind>) {
    match result
    case Ok(p) => p.Decodes? && (Keyed(key), result) in g
    case Err(e) => (Keyed(key), result) in g || (e == Protocol && exists p, q :: RejectedFor(g, key, p, q))
  }

  /** `m` is what the cache serves for `m0` at some age. */
  predicate ServedFrom(m0: Message, elapsed: U32, stale: bool, m: Message) {
    RawCacheTtl(m0).Some? && m == Aged(m0, elapsed, stale, RawCacheTtl(m0).value.negativeTtl)
  }

  ghost predicate CachedFrom(g: Given, key: RawKey, m: Message) {
    exists m0, elapsed, stale :: (Keyed(key), Ok(Decodes(m0))) in g && ServedFrom(m0, elapsed, stale, m)
  }

  /** A message upstream gave for this key, as it came or aged. */
  ghost predicate Source(g: Given, key: RawKey, m: Message) {
    (Keyed(key), Ok(Decodes(m))) in g || CachedFrom(g, key, m)
  }

  ghost predicate ReplyFrom(g: Given, t: TaskId, packet: Packet, reply: Result<Packet, ErrorKind>) {
    match FromPacket(packet)
    case Err(e) => reply == Err(e)
    case Ok(None) =>
      (match reply
       case Ok(p) => (Direct(t), reply) in g
       case Err(e) =>
         (Direct(t), reply) in g || (e == Protocol && exists p :: (Direct(t), Ok(p)) in g && !Validates(packet, p)))
    case Ok(Some(key)) =>
      (match reply
       case Ok(p) => p.Decodes? && exists m :: Source(g, key, m) && Readdressed(p.message, m) == m
       case Err(_) => SharedFrom(g, key, reply))
  }

  lemma RewrittenFrom(g: Given, t: TaskId, packet: Packet, key: RawKey, m: Message)
    requires HasKey(packet, key) && Source(g, key, m)
    ensures ReplyFrom(g, t, packet, Rewrite(Decodes(m), packet))
  {
    RewriteKeepsContent(Decodes(m), packet);
  }

  lemma SharedReply(g: Given, t: TaskId, packet: Packet, key: RawKey, result: Result<Packet, ErrorKind>)
    requires HasKey(packet, key) && SharedFrom(g, key, result)
    ensures ReplyFrom(g, t, packet, ReplyTo(packet, result))
  {
    if result.Ok? {
      assert result == Ok(Decodes(result.value.message));
      RewrittenFrom(g, t, packet, key, result.value.message);
    }
  }

  // ------------------------------------------------------------- the invariant

  ghost predicate TaskSourced(g: Given, t: TaskId, task: Task) {
    match task.pc
    case OwnerStore(key, _, p) => p.Decodes? && (Keyed(key), Ok(p)) in g
    case OwnerSet(key, _, o) => o.Completed? ==> SharedFrom(g, key, o.result)
    case OwnerNotify(key, _, o) => o.Completed? ==> SharedFrom(g, key, o.result)
    case OwnerRemove(key, _, o) => o.Completed? ==> SharedFrom(g, key, o.result)
    case RefreshStore(key, p) => p.Decodes? && (Keyed(key), Ok(p)) in g
    case StartRefresh(key, served) => served.Decodes? && CachedFrom(g, key, served.message)
    case Replied(reply) => ReplyFrom(g, t, task.packet, reply)
    case _ => true
  }

  ghost predicate FlightsSourced(g: Given, tb: Table) {
    forall f :: f in tb.flights && tb.flights[f].outcome.Completed? ==>
      SharedFrom(g, tb.flights[f].key, tb.flights[f].outcome.result)
  }

  ghost predicate SlotSourced(g: Given, slot: Slot<RawKey, CachedPacket>) {
    && (Keyed(slot.key), Ok(Decodes(slot.value.message))) in g
    && RawCacheTtl(slot.value.message).Some?
    && slot.value.negativeTtl == RawCacheTtl(slot.value.message).value.negativeTtl
  }

  ghost predicate CacheSourced(g: Given, c: Option<Cache>) {
    c.Some? ==> forall slot :: slot in c.value.items ==> SlotSourced(g, slot)
  }

  ghost predicate Sourced(g: Given, s: State) {
    && FlightsSourced(g, s.table)
    && CacheSourced(g, s.cache)
    && (forall t :: t in s.tasks ==> TaskSourced(g, t, s.tasks[t]))
  }

  lemma SharedGrows(g: Given, g': Given, key: RawKey, result: Result<Packet, ErrorKind>)
    requires g <= g' && SharedFrom(g, key, result)
    ensures SharedFrom(g', key, result)
  {
    if result.Err? && (Keyed(key), result) !in g {
      var p, q :| RejectedFor(g, key, p, q);
      assert RejectedFor(g', key, p, q);
    }
  }

  lemma SourceGrows(g: Given, g': Given, key: RawKey, m: Message)
    requires g <= g'
    ensures CachedFrom(g, key, m) ==> CachedFrom(g', key, m)
    ensures Source(g, key, m) ==> Source(g', key, m)
  {
  }

  lemma ReplyGrows(g: Given, g': Given, t: TaskId, packet: Packet, reply: Result<Packet, ErrorKind>)
    requires g <= g' && ReplyFrom(g, t, packet, reply)
    ensures ReplyFrom(g', t, packet, reply)
  {
    match FromPacket(packet) {
      case Err(_) =>
      case Ok(None) =>
      case Ok(Some(key)) =>
        if reply.Ok? {
          var m :| Source(g, key, m) && Readdressed(reply.value.message, m) == m;
          SourceGrows(g, g', key, m);
        } else {
          SharedGrows(g, g', key, reply);
        }
    }
  }

  lemma TaskGrows(g: Given, g': Given, t: TaskId, task: Task)
    requires g <= g' && TaskSourced(g, t, task)
    ensures TaskSourced(g', t, task)
  {
    match task.pc {
      case OwnerSet(key, _, o) => if o.Completed? { SharedGrows(g, g', key, o.result); }
      case OwnerNotify(key, _, o) => if o.Completed? { SharedGrows(g, g', key, o.result); }
      case OwnerRemove(key, _, o) => if o.Completed? { SharedGrows(g, g', key, o.result); }
      case StartRefresh(key, served) => SourceGrows(g, g', key, served.message);
      case Replied(reply) => ReplyGrows(g, g', t, task.packet, reply);
      case _ =>
    }
  }

  lemma SharedPartsGrow(g: Given, g': Given, tb: Table, c: Option<Cache>)
    requires g <= g' && FlightsSourced(g, tb) && CacheSourced(g, c)
    ensures FlightsSourced(g', tb) && CacheSourced(g', c)
  {
    forall f | f in tb.flights && tb.flights[f].outcome.Completed?
      ensures SharedFrom(g', tb.flights[f].key, tb.flights[f].outcome.result)
    {
      SharedGrows(g, g', tb.flights[f].key, tb.flights[f].outcome.result);
    }
  }

  // ----------------------------------------------------------------- the moves

  lemma QuerySourced(s: State, g: Given, t: TaskId, task: Task, e: Event)
    requires e.Step? && TaskFlights(s.table, t, task) && TaskSourced(g, t, task)
    requires task.pc.OwnerQuery? || task.pc.OwnerStore?
    requires task.pc.OwnerQuery? && e.upstream.Some? ==> (Keyed(task.pc.key), e.upstream.value) in g
    ensures var d := QueryDecision(s, task, task.pc, e.upstream, e.now);
      && TaskSourced(g, t, task.(pc := d.pc)) && d.table.KeepTable? && d.marks.KeepMarks?
      && (d.cache.WriteCache? ==> d.cache.packet.Decodes? && (Keyed(d.cache.key), Ok(d.cache.packet)) in g)
  {
    if task.pc.OwnerQuery? && e.upstream.Some? && e.upstream.value.Ok? {
      var p := e.upstream.value.value;
      assert !Validates(task.packet, p) ==> RejectedFor(g, task.pc.key, p, task.packet);
    }
  }

  lemma SettleSourced(g: Given, t: TaskId, task: Task)
    requires HasKeyField(task.pc) ==> HasKey(task.packet, task.pc.key)
    requires TaskSourced(g, t, task) && (task.pc.OwnerSet? || task.pc.OwnerNotify? || task.pc.OwnerRemove?)
    ensures var d := SettleDecision(task.packet, task.pc);
      && TaskSourced(g, t, task.(pc := d.pc)) && d.cache.KeepCache? && d.marks.KeepMarks?
      && (d.table.SetOutcome? ==>
            d.table.f == task.pc.f && d.table.outcome == task.pc.outcome)
  {
    if task.pc.OwnerRemove? && task.pc.outcome.Completed? {
      SharedReply(g, t, task.packet, task.pc.key, task.pc.outcome.result);
    }
  }

  lemma WaitSourced(s: State, g: Given, t: TaskId, task: Task)
    requires TaskFlights(s.table, t, task) && FlightsSourced(g, s.table) && IsWait(task.pc)
    ensures var d := WaitDecision(s, task, task.pc);
      TaskSourced(g, t, task.(pc := d.pc)) && d == Go(d.pc)
  {
    var fl := s.table.flights[task.pc.f];
    if task.pc.WaitRead? && fl.outcome.Completed? {
      SharedReply(g, t, task.packet, task.pc.key, fl.outcome.result);
    }
  }

  lemma CheckSourced(s: State, g: Given, t: TaskId, task: Task, now: Time)
    requires TaskFlights(s.table, t, task) && CacheSourced(g, s.cache) && task.pc.CheckCache?
    ensures var d := CheckDecision(s, task, task.pc.key, now);
      && TaskSourced(g, t, task.(pc := d.pc))
      && d.table.KeepTable? && !d.cache.WriteCache? && d.marks.KeepMarks?
  {
    var key := task.pc.key;
    if s.cache.Some? && Serve(s.cache.value.items, key, task.allowStale, now).Some? {
      var entry := Lookup(s.cache.value.items, key).value;
      assert Slot(key, entry) in s.cache.value.items;
      assert SlotSourced(g, Slot(key, entry));
      var served := Serve(s.cache.value.items, key, task.allowStale, now).value.0;
      assert ServedFrom(entry.message, Elapsed(entry.cachedAt, now), Expired(entry, now), served);
      RewrittenFrom(g, t, task.packet, key, served);
    }
  }

  lemma RefreshSourced(s: State, g: Given, t: TaskId, task: Task, spawn: TaskId, newId: nat)
    requires TaskFlights(s.table, t, task) && TaskSourced(g, t, task) && task.pc.StartRefresh?
    ensures var d := RefreshDecision(s, task, task.pc.key, task.pc.served, spawn, newId);
      && TaskSourced(g, t, task.(pc := d.pc)) && d.table.KeepTable? && d.cache.KeepCache?
  {
    RewrittenFrom(g, t, task.packet, task.pc.key, task.pc.served.message);
  }

  lemma EntrySourced(s: State, g: Given, t: TaskId, task: Task, e: Event)
    requires e.Step? && TaskSourced(g, t, task) && (task.pc.Bypass? ==> FromPacket(task.packet) == Ok(None))
    requires !HasKeyField(task.pc) || task.pc.Begin?
    requires task.pc.Bypass? && e.upstream.Some? ==> (Direct(t), e.upstream.value) in g
    ensures var d := EntryDecision(s, task, task.pc, e.upstream);
      && TaskSourced(g, t, task.(pc := d.pc)) && d.cache.KeepCache? && d.marks.KeepMarks?
      && !d.table.SetOutcome?
  {
  }

  lemma BackgroundSourced(g: Given, t: TaskId, task: Task, e: Event)
    requires e.Step? && TaskSourced(g, t, task) && IsRefresh(task.pc)
    requires task.pc.RefreshQuery? && e.upstream.Some? ==> (Keyed(task.pc.key), e.upstream.value) in g
    ensures var d := BackgroundDecision(task, task.pc, e.upstream, e.now);
      && TaskSourced(g, t, task.(pc := d.pc)) && d.table.KeepTable?
      && (d.cache.WriteCache? ==> d.cache.packet.Decodes? && (Keyed(d.cache.key), Ok(d.cache.packet)) in g)
  {
  }

  /** Bypassing tasks are exactly those without a key. */
  predicate BypassOk(task: Task) {
    task.pc.Bypass? ==> FromPacket(task.packet) == Ok(None)
  }

  ghost predicate MoveSourced(g: Given, t: TaskId, task: Task, d: Decision) {
    && TaskSourced(g, t, task.(pc := d.pc)) && BypassOk(task.(pc := d.pc))
    && (d.cache.WriteCache? ==> d.cache.packet.Decodes? && (Keyed(d.cache.key), Ok(d.cache.packet)) in g)
    && (d.table.SetOutcome? ==> task.pc.OwnerSet? && d.table.f == task.pc.f && d.table.outcome == task.pc.outcome)
  }

  lemma Moves(s: State, g: Given, t: TaskId, task: Task, e: Event)
    requires e.Step? && e.t == t && t in s.tasks && s.tasks[t] == task
    requires TaskFlights(s.table, t, task) && TaskSourced(g, t, task) && BypassOk(task)
    requires FlightsSourced(g, s.table) && CacheSourced(g, s.cache) && Supplies(s, e) <= g
    ensures MoveSourced(g, t, task, Decide(s, task, e))
  {
    var pc := task.pc;
    BypassMove(s, task, e);
    TableOrder(s, t, task, e);
    if IsWait(pc) {
      WaitSourced(s, g, t, task);
    } else if IsRefresh(pc) {
      BackgroundSourced(g, t, task, e);
    } else if pc.CheckCache? {
      CheckSourced(s, g, t, task, e.now);
    } else if pc.StartRefresh? {
      RefreshSourced(s, g, t, task, e.spawn, e.newId);
    } else if pc.OwnerQuery? || pc.OwnerStore? {
      QuerySourced(s, g, t, task, e);
    } else if IsOwner(pc) {
      SettleSourced(g, t, task);
    } else {
      EntrySourced(s, g, t, task, e);
    }
  }

  lemma BypassMove(s: State, task: Task, e: Event)
    requires BypassOk(task)
    ensures BypassOk(task.(pc := Decide(s, task, e).pc))
  {
  }

  lemma CancelSourced(g: Given, t: TaskId, task: Task)
    requires TaskSourced(g, t, task)
    ensures TaskSourced(g, t, task.(pc := CancelDecision(task.pc).pc))
    ensures CancelDecision(task.pc) == Go(CancelDecision(task.pc).pc)
  {
  }

  lemma FlightsAfter(g: Given, tb: Table, t: TaskId, task: Task, d: Decision)
    requires SharedFlights(tb) && FlightsSourced(g, tb) && TaskFlights(tb, t, task) && TaskSourced(g, t, task)
    requires d.table.SetOutcome? ==> task.pc.OwnerSet? && d.table.f == task.pc.f && d.table.outcome == task.pc.outcome
    ensures FlightsSourced(g, DoTable(tb, d.table, t))
  {
  }

  lemma CacheAfter(g: Given, c: Option<Cache>, capacity: nat, op: CacheOp)
    requires CacheSourced(g, c)
    requires op.WriteCache? ==> op.packet.Decodes? && (Keyed(op.key), Ok(op.packet)) in g
    ensures CacheSourced(g, DoCache(c, capacity, op))
  {
    if c.Some? {
      match op {
        case KeepCache =>
        case ReadCache(key, allowStale, now) =>
          forall s | s in CacheStep(c.value, capacity, Get(key, allowStale, now)).items
            ensures s in c.value.items
          {
          }
        case WriteCache(key, packet, now) =>
          forall s | s in CacheStep(c.value, capacity, Insert(key, packet, now)).items
            ensures SlotSourced(g, s)
          {
            InsertedSlot(c.value, capacity, key, packet.message, now, s);
          }
      }
    }
  }

  lemma InsertedSlot(c: Cache, capacity: nat, key: RawKey, m: Message, now: Time, s: Slot<RawKey, CachedPacket>)
    requires s in CacheStep(c, capacity, Insert(key, Decodes(m), now)).items
    ensures s in c.items || (RawCacheTtl(m).Some? && s == Slot(key, Entry(m, RawCacheTtl(m).value, now)))
  {
  }

  // -------------------------------------------------------------- over every run

  ghost predicate Traced(g: Given, s: State) {
    Sourced(g, s) && forall t :: t in s.tasks ==> BypassOk(s.tasks[t])
  }

  lemma TracedGrows(g: Given, g': Given, s: State)
    requires g <= g' && Traced(g, s)
    ensures Traced(g', s)
  {
    SharedPartsGrow(g, g', s.table, s.cache);
    forall t | t in s.tasks ensures TaskSourced(g', t, s.tasks[t]) {
      TaskGrows(g, g', t, s.tasks[t]);
    }
  }

  /** One decision taken: the mover is sourced by its move, the others as before, a new refresh trivially. */
  lemma PerformTraced(s: State, g: Given, t: TaskId, task: Task, d: Decision)
    requires Inv(s) && Traced(g, s) && t in s.tasks && s.tasks[t] == task && MoveSourced(g, t, task, d)
    requires d.marks.Mark? ==> d.marks.task.pc.RefreshQuery?
    ensures Traced(g, Perform(s, t, task, d))
  {
    assert TaskFlights(s.table, t, task);
    FlightsAfter(g, s.table, t, task, d);
    CacheAfter(g, s.cache, s.capacity, d.cache);
    var s' := Perform(s, t, task, d);
    forall u | u in s'.tasks ensures TaskSourced(g, u, s'.tasks[u]) && BypassOk(s'.tasks[u]) {
    }
  }

  lemma StepTraced(s: State, g: Given, e: Event)
    requires Inv(s) && Traced(g, s) && Supplies(s, e) <= g
    ensures Traced(g, Apply(s, e))
  {
    if !e.StartQuery? && e.t in s.tasks {
      var task := s.tasks[e.t];
      assert TaskFlights(s.table, e.t, task);
      MoveIsLawful(s, e.t, task, e);
      if e.Step? {
        Moves(s, g, e.t, task, e);
      } else {
        CancelSourced(g, e.t, task);
        BypassMove(s, task, e);
      }
      PerformTraced(s, g, e.t, task, Decide(s, task, e));
    }
  }

  lemma {:induction false} RunTraced(cached: bool, capacity: nat, events: seq<Event>)
    ensures Traced(GivenBy(cached, capacity, events), Run(Init(cached, capacity), events))
  {
    if events != [] {
      var past, e := events[..|events| - 1], events[|events| - 1];
      var s, g := Run(Init(cached, capacity), past), GivenBy(cached, capacity, past);
      RunTraced(cached, capacity, past);
      Reachable(cached, capacity, past);
      TracedGrows(g, g + Supplies(s, e), s);
      StepTraced(s, g + Supplies(s, e), e);
    }
  }

  /**
   * Every reply is what upstream said. A success, with its own id and
   * questions put back, is record for record and flag for flag a message that
   * upstream returned for the same key, or that message as the cache ages it;
   * a request without a key gets upstream's answer to itself. A failure is
   * upstream's error, or stands for an answer that did not validate.
   */
  lemma RepliesComeFromUpstream(cached: bool, capacity: nat, events: seq<Event>, t: TaskId)
    ensures var s := Run(Init(cached, capacity), events);
      t in s.tasks && s.tasks[t].pc.Replied? ==>
        ReplyFrom(GivenBy(cached, capacity, events), t, s.tasks[t].packet, s.tasks[t].pc.reply)
  {
    RunTraced(cached, capacity, events);
  }

  // ---------------------------------------------------- what happens to an answer

  /** The cache call a step makes: a read where a task looks, a write where it stores. */
  function CacheCall(s: State, e: Event): seq<CacheEvent> {
    if !e.Step? || e.t !in s.tasks then []
    else
      match s.tasks[e.t].pc
      case CheckCache(key) => [Get(key, s.tasks[e.t].allowStale, e.now)]
      case OwnerStore(key, _, response) => [Insert(key, response, e.now)]
      case RefreshStore(key, response) => [Insert(key, response, e.now)]
      case _ => []
  }

  function CacheCalls(cached: bool, capacity: nat, events: seq<Event>): seq<CacheEvent> {
    if events == [] then []
    else
      var past := events[..|events| - 1];
      CacheCalls(cached, capacity, past) + CacheCall(Run(Init(cached, capacity), past), events[|events| - 1])
  }

  lemma CacheOps(s: State, task: Task, e: Event)
    ensures Decide(s, task, e).cache ==
      match task.pc
      case CheckCache(key) => if e.Step? then ReadCache(key, task.allowStale, e.now) else KeepCache
      case OwnerStore(key, _, response) => if e.Step? then WriteCache(key, response, e.now) else KeepCache
      case RefreshStore(key, response) => if e.Step? then WriteCache(key, response, e.now) else KeepCache
      case _ => KeepCache
  {
  }

  /** The cache after some calls, of which there is at most one. */
  function Called(c: Cache, capacity: nat, calls: seq<CacheEvent>): Cache {
    if calls == [] then c else CacheStep(c, capacity, calls[0])
  }

  lemma CacheCallStep(s: State, e: Event)
    ensures Apply(s, e).capacity == s.capacity
    ensures s.cache.None? ==> Apply(s, e).cache.None?
    ensures s.cache.Some? ==> Apply(s, e).cache == Some(Called(s.cache.value, s.capacity, CacheCall(s, e)))
  {
    if !e.StartQuery? && e.t in s.tasks {
      CacheOps(s, s.tasks[e.t], e);
      CachePerform(s, e.t, s.tasks[e.t], Decide(s, s.tasks[e.t], e));
    }
  }

  lemma CachePerform(s: State, t: TaskId, task: Task, d: Decision)
    ensures var s' := Perform(s, t, task, d);
      s'.capacity == s.capacity && s'.cache == DoCache(s.cache, s.capacity, d.cache)
  {
  }

  /** The resolver's cache is the raw cache run on exactly these calls, so all that is proved of it holds here. */
  lemma {:induction false} CacheIsItsCalls(cached: bool, capacity: nat, events: seq<Event>)
    ensures var s := Run(Init(cached, capacity), events);
      && s.capacity == capacity && (s.cache.Some? <==> cached)
      && (cached ==> s.cache.value == CacheRun(capacity, CacheCalls(cached, capacity, events)))
  {
    if events != [] {
      var past, e := events[..|events| - 1], events[|events| - 1];
      var s := Run(Init(cached, capacity), past);
      CacheIsItsCalls(cached, capacity, past);
      CacheCallStep(s, e);
      if cached && CacheCall(s, e) != [] {
        RunGrows(capacity, CacheCalls(cached, capacity, past), CacheCall(s, e)[0]);
        assert [CacheCall(s, e)[0]] == CacheCall(s, e);
      } else {
        assert CacheCalls(cached, capacity, past) + [] == CacheCalls(cached, capacity, past);
      }
    }
  }

  /** A validated answer goes to the cache, if there is one, and then to everybody on the flight. */
  lemma AnswerIsStoredAndShared(s: State, t: TaskId, e: Event, p: Packet)
    requires t in s.tasks && s.tasks[t].pc.OwnerQuery? && e.Step? && e.t == t && e.upstream == Some(Ok(p))
    requires Validates(s.tasks[t].packet, p)
    ensures var pc, pc' := s.tasks[t].pc, Apply(s, e).tasks[t].pc;
      pc' == if s.cache.Some? then OwnerStore(pc.key, pc.f, p) else OwnerSet(pc.key, pc.f, Completed(Ok(p)))
  {
  }

  /** An upstream error, or an answer that does not belong to the request, is shared like an answer. */
  lemma FailureIsShared(s: State, t: TaskId, e: Event, result: Result<Packet, ErrorKind>)
    requires t in s.tasks && s.tasks[t].pc.OwnerQuery? && e.Step? && e.t == t && e.upstream == Some(result)
    requires result.Ok? ==> !Validates(s.tasks[t].packet, result.value)
    ensures var pc, s' := s.tasks[t].pc, Apply(s, e);
      && s'.tasks[t].pc == OwnerSet(pc.key, pc.f, Completed(Err(if result.Ok? then Protocol else result.error)))
      && CacheCall(s, e) == []
  {
  }

  lemma StoredIsShared(s: State, t: TaskId, e: Event)
    requires t in s.tasks && s.tasks[t].pc.OwnerStore? && e.Step? && e.t == t
    ensures var pc, pc' := s.tasks[t].pc, Apply(s, e).tasks[t].pc;
      pc' == OwnerSet(pc.key, pc.f, Completed(Ok(pc.response)))
  {
  }

  /** An answer is offered to the cache before it is shared. */
  ghost predicate Offered(calls: seq<CacheEvent>, key: RawKey, o: Outcome) {
    o.Completed? && o.result.Ok? ==> exists now :: Insert(key, o.result.value, now) in calls
  }

  ghost predicate AllOffered(calls: seq<CacheEvent>, s: State) {
    && (forall f :: f in s.table.flights ==> Offered(calls, s.table.flights[f].key, s.table.flights[f].outcome))
    && (forall t :: t in s.tasks ==>
          var pc := s.tasks[t].pc;
          pc.OwnerSet? || pc.OwnerNotify? || pc.OwnerRemove? ==> Offered(calls, pc.key, pc.outcome))
  }

  lemma OfferedGrows(calls: seq<CacheEvent>, more: seq<CacheEvent>, s: State)
    requires AllOffered(calls, s)
    ensures AllOffered(calls + more, s)
  {
    assert forall c :: c in calls ==> c in calls + more;
  }

  /** Where a decision leaves a task with an outcome in hand. */
  lemma OutcomeInHand(s: State, task: Task, e: Event)
    requires s.cache.Some?
    ensures var d := Decide(s, task, e); var pc := task.pc;
      && (d.pc.OwnerSet? || d.pc.OwnerNotify? || d.pc.OwnerRemove? ==>
            || !d.pc.outcome.Completed? || d.pc.outcome.result.Err?
            || (pc.OwnerStore? && e.Step? && d.pc.key == pc.key && d.pc.outcome == Completed(Ok(pc.response)))
            || ((pc.OwnerSet? || pc.OwnerNotify? || pc.OwnerRemove?)
                && d.pc.key == pc.key && d.pc.outcome == pc.outcome))
      && (d.marks.Mark? ==> d.marks.task.pc.RefreshQuery?)
  {
  }

  lemma OfferedStep(s: State, calls: seq<CacheEvent>, e: Event)
    requires Inv(s) && s.cache.Some? && AllOffered(calls, s)
    requires forall c :: c in CacheCall(s, e) ==> c in calls
    ensures AllOffered(calls, Apply(s, e))
  {
    if !e.StartQuery? && e.t in s.tasks {
      var task := s.tasks[e.t];
      var d := Decide(s, task, e);
      assert TaskFlights(s.table, e.t, task);
      TableOrder(s, e.t, task, e);
      OutcomeInHand(s, task, e);
      if task.pc.OwnerStore? && e.Step? {
        assert Insert(task.pc.key, task.pc.response, e.now) in CacheCall(s, e);
      }
      OfferedPerform(s, calls, e.t, task, d);
    }
  }

  lemma OfferedPerform(s: State, calls: seq<CacheEvent>, t: TaskId, task: Task, d: Decision)
    requires AllOffered(calls, s) && t in s.tasks && s.tasks[t] == task
    requires SharedFlights(s.table) && TaskFlights(s.table, t, task) && LawfulTable(s.table, t, task.pc, d)
    requires d.pc.OwnerSet? || d.pc.OwnerNotify? || d.pc.OwnerRemove? ==> Offered(calls, d.pc.key, d.pc.outcome)
    requires d.marks.Mark? ==> d.marks.task.pc.RefreshQuery?
    ensures AllOffered(calls, Perform(s, t, task, d))
  {
    var tb' := DoTable(s.table, d.table, t);
    forall f | f in tb'.flights ensures Offered(calls, tb'.flights[f].key, tb'.flights[f].outcome) {
    }
  }

  lemma {:induction false} RunOffered(cached: bool, capacity: nat, events: seq<Event>)
    requires cached
    ensures AllOffered(CacheCalls(cached, capacity, events), Run(Init(cached, capacity), events))
  {
    if events != [] {
      var past, e := events[..|events| - 1], events[|events| - 1];
      var s, calls := Run(Init(cached, capacity), past), CacheCalls(cached, capacity, past);
      RunOffered(cached, capacity, past);
      Reachable(cached, capacity, past);
      CacheIsItsCalls(cached, capacity, past);
      OfferedGrows(calls, CacheCall(s, e), s);
      OfferedStep(s, calls + CacheCall(s, e), e);
    }
  }

  /** With a cache, whatever a flight shares was written to it first. */
  lemma SharedAnswersWereOffered(capacity: nat, events: seq<Event>, f: FlightId)
    ensures var s := Run(Init(true, capacity), events);
      f in s.table.flights ==>
        Offered(CacheCalls(true, capacity, events), s.table.flights[f].key, s.table.flights[f].outcome)
  {
    RunOffered(true, capacity, events);
  }

  /** A stale hit is served only together with a refresh of its key, running already or started by this hit. */
  lemma StaleHitRefreshes(s: State, t: TaskId, now: Time, upstream: Option<Result<Packet, ErrorKind>>,
                          spawn: TaskId, newId: nat)
    requires Inv(s) && t in s.tasks && s.tasks[t].pc.CheckCache? && s.cache.Some?
    requires Serve(s.cache.value.items, s.tasks[t].pc.key, s.tasks[t].allowStale, now).Some?
    requires Serve(s.cache.value.items, s.tasks[t].pc.key, s.tasks[t].allowStale, now).value.1
    ensures var key := s.tasks[t].pc.key; var hit := Apply(s, Step(t, upstream, now, spawn, newId));
      && t in hit.tasks && hit.tasks[t].pc.StartRefresh? && hit.tasks[t].pc.key == key
      && hit.tasks[t].pc.served == Decodes(Serve(s.cache.value.items, key, s.tasks[t].allowStale, now).value.0)
  {
  }

  lemma RefreshIsRunning(s: State, t: TaskId, now: Time, upstream: Option<Result<Packet, ErrorKind>>,
                         spawn: TaskId, newId: nat)
    requires Inv(s) && t in s.tasks && s.tasks[t].pc.StartRefresh? && spawn !in s.tasks
    ensures var key := s.tasks[t].pc.key; var s' := Apply(s, Step(t, upstream, now, spawn, newId));
      && key in s'.refreshing && s'.refreshing[key] in s'.tasks && IsRefresh(s'.tasks[s'.refreshing[key]].pc)
      && t in s'.tasks && s'.tasks[t].pc == Replied(Rewrite(s.tasks[t].pc.served, s.tasks[t].packet))
  {
    assert TaskFlights(s.table, t, s.tasks[t]);
    InvStep(s, Step(t, upstream, now, spawn, newId));
  }

  /** The refresh a stale hit starts asks the same question under a transaction id of its own. */
  lemma RefreshAsksTheSameQuestion(s: State, t: TaskId, e: Event)
    requires t in s.tasks && s.tasks[t].pc.StartRefresh? && e.Step? && e.t == t && e.spawn !in s.tasks
    requires s.tasks[t].pc.key !in s.refreshing && HasKey(s.tasks[t].packet, s.tasks[t].pc.key)
    ensures var key, asked := s.tasks[t].pc.key, s.tasks[t].packet.message; var s' := Apply(s, e);
      && e.spawn in s'.tasks && s'.tasks[e.spawn].pc == RefreshQuery(key) && s'.refreshing[key] == e.spawn
      && s'.tasks[e.spawn].packet.Decodes? && HasKey(s'.tasks[e.spawn].packet, key)
      && s'.tasks[e.spawn].packet.message.metadata.id == e.newId
      && SameRequest(s'.tasks[e.spawn].packet.message, asked)
  {
    NewIdKeepsKey(s.tasks[t].packet, s.tasks[t].pc.key, e.newId);
  }

  /** A live hit that is not stale is the whole answer: the reader stops, and nobody asks upstream for it. */
  lemma FreshHitAnswers(s: State, t: TaskId, e: Event)
    requires t in s.tasks && s.tasks[t].pc.CheckCache? && s.cache.Some? && e.Step? && e.t == t
    ensures var key, packet := s.tasks[t].pc.key, s.tasks[t].packet; var s' := Apply(s, e);
      var found := Lookup(s.cache.value.items, key);
      && s'.table == s.table && s'.refreshing == s.refreshing && s'.tasks.Keys == s.tasks.Keys
      && (found.Some? && !Expired(found.value, e.now) ==>
            var served := Aged(found.value.message, Elapsed(found.value.cachedAt, e.now), false,
                               found.value.negativeTtl);
            s'.tasks[t].pc == Replied(Rewrite(Decodes(served), packet)))
      && (found.None? || (Expired(found.value, e.now) && !s.tasks[t].allowStale) ==> s'.tasks[t].pc == Begin(key))
  {
  }

  /** What a refresh brings back is offered to the cache exactly when it validates; either way the mark goes. */
  lemma RefreshIsStored(s: State, t: TaskId, p: Packet, e: Event, stored: Event, ended: Event)
    requires t in s.tasks && s.tasks[t].pc.RefreshQuery?
    requires e.Step? && e.t == t && e.upstream == Some(Ok(p)) && stored.Step? && stored.t == t
    requires ended.Step? && ended.t == t
    ensures var key := s.tasks[t].pc.key; var valid := Validates(s.tasks[t].packet, p);
      var s1 := Apply(s, e); var s2 := if valid then Apply(s1, stored) else s1; var s3 := Apply(s2, ended);
      && CacheCall(s, e) == []
      && (valid && s.cache.Some? ==> CacheCall(s1, stored) == [Insert(key, p, stored.now)])
      && CacheCall(s2, ended) == []
      && key !in s3.refreshing && t in s3.tasks && s3.tasks[t].pc.Gone?
  {
    var valid := Validates(s.tasks[t].packet, p);
    var key := s.tasks[t].pc.key;
    var s1 := Apply(s, e);
    assert s1.tasks[t].pc == if valid then RefreshStore(key, p) else RefreshEnd(key);
    var s2 := if valid then Apply(s1, stored) else s1;
    assert s2.tasks[t].pc == RefreshEnd(key);
  }
}
