/** The TTL-aware raw response cache: lifetimes, ageing, stale serving and replacement rules. */
module DnsCaches {
  import opened Common
  import opened DnsMessages
  import opened LruMaps

  /** Nanoseconds of a monotonic clock. */
  type Time = nat

  const NANOS_PER_SECOND: nat := 1_000_000_000
  const EXPIRATION_SWEEP_BUDGET: nat := 8

  // ------------------------------------------------------------- lifetime

  function Least(a: Option<U32>, b: U32): Option<U32> {
    if a.None? || b < a.value then Some(b) else a
  }

  function Min(a: U32, b: U32): U32 {
    if a <= b then a else b
  }

  function AnswerTtl(records: seq<Record>): (r: Option<U32>)
    ensures r.None? <==> records == []
    ensures r.Some? ==> forall i :: 0 <= i < |records| ==> r.value <= records[i].ttl
    ensures r.Some? ==> exists i :: 0 <= i < |records| && r.value == records[i].ttl
  {
    if records == [] then None
    else
      var init := AnswerTtl(records[..|records| - 1]);
      Least(init, records[|records| - 1].ttl)
  }

  /** Section 5 of RFC 2308: a negative answer lives for the lesser of the SOA's own TTL and its MINIMUM field. */
  function NegativeTtl(records: seq<Record>): (r: Option<U32>)
    ensures r.None? <==> forall i :: 0 <= i < |records| ==> !records[i].data.Soa?
    ensures r.Some? ==>
      forall i :: 0 <= i < |records| && records[i].data.Soa? ==>
        r.value <= records[i].ttl && r.value <= records[i].data.minimum
    ensures r.Some? ==>
      exists i :: 0 <= i < |records| && records[i].data.Soa? && r.value == Min(records[i].ttl, records[i].data.minimum)
  {
    if records == [] then None
    else
      var init := NegativeTtl(records[..|records| - 1]);
      var last := records[|records| - 1];
      if last.data.Soa? then Least(init, Min(last.ttl, last.data.minimum)) else init
  }

  datatype Lifetime = Lifetime(ttl: U32, negativeTtl: Option<U32>)

  /** `raw_cache_ttl`: how long a response may live, or nothing if it may not be cached. */
  function RawCacheTtl(m: Message): Option<Lifetime> {
    var negative := NegativeTtl(m.authorities);
    var answer := AnswerTtl(m.answers);
    if m.metadata.truncation then None
    else
      match m.metadata.responseCode
      case NoError =>
        if answer.Some? then
          Some(Lifetime(if negative.Some? then Min(answer.value, negative.value) else answer.value, negative))
        else if negative.Some? then Some(Lifetime(negative.value, negative))
        else None
      case NXDomain =>
        if negative.None? then None
        else Some(Lifetime(if answer.Some? then Min(answer.value, negative.value) else negative.value, negative))
      case OtherCode(_) => None
  }

  // --------------------------------------------------------------- ageing

  function Elapsed(cachedAt: Time, now: Time): U32 {
    var seconds := (if now >= cachedAt then now - cachedAt else 0) / NANOS_PER_SECOND;
    if seconds < 0x1_0000_0000 then seconds else 0xffff_ffff
  }

  function AgedTtl(r: Record, elapsed: U32, stale: bool, negativeTtl: Option<U32>): U32 {
    var original := if negativeTtl.Some? && r.data.Soa? then Min(r.ttl, negativeTtl.value) else r.ttl;
    if stale || original <= elapsed then 0 else original - elapsed
  }

  /** A section with every TTL aged and nothing else changed. */
  function AgedSection(section: seq<Record>, elapsed: U32, stale: bool, negativeTtl: Option<U32>): (aged: seq<Record>)
    ensures |aged| == |section|
    ensures forall i :: 0 <= i < |section| ==>
              aged[i] == section[i].(ttl := AgedTtl(section[i], elapsed, stale, negativeTtl))
  {
    seq(|section|, i requires 0 <= i < |section| =>
      section[i].(ttl := AgedTtl(section[i], elapsed, stale, negativeTtl)))
  }

  function Aged(m: Message, elapsed: U32, stale: bool, negativeTtl: Option<U32>): Message {
    m.(answers := AgedSection(m.answers, elapsed, stale, negativeTtl),
       authorities := AgedSection(m.authorities, elapsed, stale, negativeTtl),
       additionals := AgedSection(m.additionals, elapsed, stale, negativeTtl))
  }

  method AgeSection(section: seq<Record>, elapsed: U32, stale: bool, negativeTtl: Option<U32>)
    returns (aged: seq<Record>)
    ensures aged == AgedSection(section, elapsed, stale, negativeTtl)
  {
    aged := section;
    var i := 0;
    while i < |aged|
      invariant 0 <= i <= |aged| == |section|
      invariant forall j :: 0 <= j < i ==>
        aged[j] == section[j].(ttl := AgedTtl(section[j], elapsed, stale, negativeTtl))
      invariant forall j :: i <= j < |aged| ==> aged[j] == section[j]
    {
      var record := aged[i];
      var original := record.ttl;
      if negativeTtl.Some? && record.data.Soa? && negativeTtl.value < original {
        original := negativeTtl.value;
      }
      var ttl := 0;
      if !stale && original > elapsed {
        ttl := original - elapsed;
      }
      aged := aged[i := record.(ttl := ttl)];
      i := i + 1;
    }
  }

  method AgeRawPacket(m: Message, cachedAt: Time, now: Time, stale: bool, negativeTtl: Option<U32>)
    returns (aged: Message)
    ensures aged == Aged(m, Elapsed(cachedAt, now), stale, negativeTtl)
  {
    var elapsed := Elapsed(cachedAt, now);
    var answers := AgeSection(m.answers, elapsed, stale, negativeTtl);
    var authorities := AgeSection(m.authorities, elapsed, stale, negativeTtl);
    var additionals := AgeSection(m.additionals, elapsed, stale, negativeTtl);
    aged := m.(answers := answers, authorities := authorities, additionals := additionals);
  }

  // ---------------------------------------------------------------- cache

  datatype CachedPacket = CachedPacket(message: Message, cachedAt: Time, expiresAt: Time, negativeTtl: Option<U32>)

  type Items = seq<Slot<RawKey, CachedPacket>>

  function Entry(m: Message, life: Lifetime, now: Time): CachedPacket {
    CachedPacket(m, now, now + life.ttl * NANOS_PER_SECOND, life.negativeTtl)
  }

  predicate Expired(entry: CachedPacket, now: Time) {
    entry.expiresAt <= now
  }

  /** A reply that settles its question; anything else is transient. */
  predicate Decisive(m: Message) {
    !m.metadata.truncation && (m.metadata.responseCode.NoError? || m.metadata.responseCode.NXDomain?)
  }

  predicate Storable(m: Message) {
    RawCacheTtl(m).Some? && RawCacheTtl(m).value.ttl > 0
  }

  datatype CacheEvent =
    | Get(key: RawKey, allowStale: bool, now: Time)
    | Insert(key: RawKey, packet: Packet, now: Time)

  /** The entries, and the log of keys touched so far. */
  datatype Cache = Cache(items: Items, log: seq<RawKey>)

  function Swept(items: Items, now: Time): Items {
    Sweep(items, EXPIRATION_SWEEP_BUDGET, (e: CachedPacket) => Expired(e, now))
  }

  function InsertMessage(c: Cache, capacity: nat, key: RawKey, m: Message, now: Time): Cache {
    match RawCacheTtl(m)
    case None => if Decisive(m) then c.(items := Without(c.items, key)) else c
    case Some(life) =>
      if life.ttl == 0 then c.(items := Without(c.items, key))
      else Cache(Put(Swept(c.items, now), capacity, key, Entry(m, life, now)), c.log + [key])
  }

  function GetMessage(c: Cache, key: RawKey, allowStale: bool, now: Time): Cache {
    match Lookup(c.items, key)
    case None => c
    case Some(entry) =>
      Cache(if Expired(entry, now) && !allowStale then Without(Touch(c.items, key), key) else Touch(c.items, key),
            c.log + [key])
  }

  /** What a reader gets: the entry aged to now, with a note if it is stale. */
  function Serve(items: Items, key: RawKey, allowStale: bool, now: Time): Option<(Message, bool)> {
    match Lookup(items, key)
    case None => None
    case Some(entry) =>
      var stale := Expired(entry, now);
      if stale && !allowStale then None
      else Some((Aged(entry.message, Elapsed(entry.cachedAt, now), stale, entry.negativeTtl), stale))
  }

  function CacheStep(c: Cache, capacity: nat, e: CacheEvent): Cache {
    match e
    case Get(key, allowStale, now) => GetMessage(c, key, allowStale, now)
    case Insert(key, packet, now) =>
      if packet.Malformed? then c else InsertMessage(c, capacity, key, packet.message, now)
  }

  function CacheRun(capacity: nat, history: seq<CacheEvent>): Cache {
    if history == [] then Cache([], [])
    else CacheStep(CacheRun(capacity, history[..|history| - 1]), capacity, history[|history| - 1])
  }

  /** The plain history a cache must agree with: the newest decisive insert for `key`, if it may be kept. */
  function LastDecisive(history: seq<CacheEvent>, key: RawKey): Option<(Message, Time)> {
    if history == [] then None
    else
      var e := history[|history| - 1];
      if e.Insert? && e.key == key && e.packet.Decodes? && Decisive(e.packet.message) then
        if Storable(e.packet.message) then Some((e.packet.message, e.now)) else None
      else LastDecisive(history[..|history| - 1], key)
  }

  /** Everything cached is its key's newest decisive insert, stamped when it arrived. */
  ghost predicate Agrees(items: Items, history: seq<CacheEvent>) {
    forall s :: s in items ==>
      match LastDecisive(history, s.key)
      case Some((m, at)) => Storable(m) && s.value == Entry(m, RawCacheTtl(m).value, at)
      case None => false
  }

  lemma TransientRepliesChangeNothing(c: Cache, capacity: nat, key: RawKey, m: Message, now: Time)
    requires !Decisive(m)
    ensures CacheStep(c, capacity, Insert(key, Decodes(m), now)) == c
  {
  }

  lemma {:induction false} CacheAgreesWithHistory(capacity: nat, history: seq<CacheEvent>)
    ensures Agrees(CacheRun(capacity, history).items, history)
  {
    if history != [] {
      var past, e := history[..|history| - 1], history[|history| - 1];
      var c := CacheRun(capacity, past);
      var c' := CacheStep(c, capacity, e);
      CacheAgreesWithHistory(capacity, past);
      forall s | s in c'.items
        ensures (match LastDecisive(history, s.key)
                 case Some((m, at)) => Storable(m) && s.value == Entry(m, RawCacheTtl(m).value, at)
                 case None => false)
      {
        if s !in c.items {
          assert e.Insert? && s == Slot(e.key, Entry(e.packet.message, RawCacheTtl(e.packet.message).value, e.now));
        } else if e.Insert? && e.packet.Decodes? && Decisive(e.packet.message) {
          SurvivorHasOtherKey(c, capacity, e, s);
        }
      }
    }
  }

  lemma SurvivorHasOtherKey(c: Cache, capacity: nat, e: CacheEvent, s: Slot<RawKey, CachedPacket>)
    requires e.Insert? && e.packet.Decodes? && Decisive(e.packet.message)
    requires s in CacheStep(c, capacity, e).items
    ensures var m := e.packet.message;
      s.key != e.key || (Storable(m) && s.value == Entry(m, RawCacheTtl(m).value, e.now))
  {
  }

  /** A hit serves the newest decisive insert for its key, aged from the moment it was cached. */
  lemma HitIsLastDecisive(capacity: nat, history: seq<CacheEvent>, key: RawKey)
    ensures var hit := Lookup(CacheRun(capacity, history).items, key);
      hit.Some? ==>
        match LastDecisive(history, key)
        case Some((m, at)) => Storable(m) && hit.value == Entry(m, RawCacheTtl(m).value, at)
        case None => false
  {
    CacheAgreesWithHistory(capacity, history);
  }

  lemma {:induction false} CacheInvariant(capacity: nat, history: seq<CacheEvent>)
    ensures Bounded(CacheRun(capacity, history), capacity)
  {
    if history != [] {
      CacheInvariant(capacity, history[..|history| - 1]);
      CacheInvariantStep(CacheRun(capacity, history[..|history| - 1]), capacity, history[|history| - 1]);
    }
  }

  ghost predicate Bounded(c: Cache, capacity: nat) {
    |c.items| <= capacity && ByRecency(c.items, c.log)
  }

  lemma CacheInvariantStep(c: Cache, capacity: nat, e: CacheEvent)
    requires Bounded(c, capacity)
    ensures Bounded(CacheStep(c, capacity, e), capacity)
  {
    match e {
      case Get(key, allowStale, now) => GetKeepsInvariant(c, capacity, key, allowStale, now);
      case Insert(key, packet, now) =>
        if packet.Decodes? {
          InsertKeepsInvariant(c, capacity, key, packet.message, now);
        }
    }
  }

  lemma GetKeepsInvariant(c: Cache, capacity: nat, key: RawKey, allowStale: bool, now: Time)
    requires Bounded(c, capacity)
    ensures Bounded(GetMessage(c, key, allowStale, now), capacity)
  {
    var hit := Lookup(c.items, key);
    if hit.Some? {
      FrontKeepsRecency(c.items, key, hit.value, c.log);
      WithoutKeepsRecency(Touch(c.items, key), key, c.log + [key]);
    }
  }

  lemma InsertKeepsInvariant(c: Cache, capacity: nat, key: RawKey, m: Message, now: Time)
    requires Bounded(c, capacity)
    ensures Bounded(InsertMessage(c, capacity, key, m, now), capacity)
  {
    if Storable(m) {
      SweptKeepsRecency(c, now);
      PutKeepsRecency(Swept(c.items, now), capacity, key, Entry(m, RawCacheTtl(m).value, now), c.log);
    } else {
      WithoutKeepsRecency(c.items, key, c.log);
    }
  }

  lemma SweptKeepsRecency(c: Cache, now: Time)
    requires ByRecency(c.items, c.log)
    ensures ByRecency(Swept(c.items, now), c.log) && |Swept(c.items, now)| <= |c.items|
  {
    SweepKeepsRecency(c.items, EXPIRATION_SWEEP_BUDGET, (e: CachedPacket) => Expired(e, now), c.log);
  }

  /**
   * An entry that survives the expiry sweep of an insertion and is gone after
   * it was evicted for room: at least `capacity` other keys were touched
   * since its own last touch.
   */
  lemma EvictionIsLeastRecentlyUsed(capacity: nat, history: seq<CacheEvent>, e: CacheEvent, victim: RawKey)
    requires e.Insert? && e.packet.Decodes? && Storable(e.packet.message)
    requires var c := CacheRun(capacity, history);
      Has(Swept(c.items, e.now), victim) && !Has(CacheStep(c, capacity, e).items, victim)
    ensures var c' := CacheStep(CacheRun(capacity, history), capacity, e);
      |TouchedSince(c'.log, victim) - {victim}| >= capacity
  {
    var c := CacheRun(capacity, history);
    CacheInvariant(capacity, history);
    SweptKeepsRecency(c, e.now);
    EvictedIsLeastRecent(Swept(c.items, e.now), capacity, e.key,
                         Entry(e.packet.message, RawCacheTtl(e.packet.message).value, e.now), c.log, victim);
  }

  lemma SweptEntryHadExpired(items: Items, now: Time, key: RawKey)
    requires Has(items, key) && !Has(Swept(items, now), key)
    ensures Lookup(items, key).Some? && Expired(Lookup(items, key).value, now)
  {
    var slot := Slot(key, Lookup(items, key).value);
    HasMeansIn(Swept(items, now), key);
    SweptHadExpired(items, EXPIRATION_SWEEP_BUDGET, (e: CachedPacket) => Expired(e, now), slot);
  }

  /**
   * Nothing is lost without a cause: a key leaves the cache when a strict
   * reader finds it expired, when a decisive reply without a usable lifetime
   * replaces it, when an insertion sweeps it out expired, or when it is the
   * least recently used of more than `capacity` keys.
   */
  lemma LossHasCause(capacity: nat, history: seq<CacheEvent>, e: CacheEvent, key: RawKey)
    requires var c := CacheRun(capacity, history); Has(c.items, key) && !Has(CacheStep(c, capacity, e).items, key)
    ensures var c := CacheRun(capacity, history);
      var expired := Lookup(c.items, key).Some? && Expired(Lookup(c.items, key).value, e.now);
      || (e.Get? && e.key == key && !e.allowStale && expired)
      || (e.Insert? && e.packet.Decodes? && e.key == key && Decisive(e.packet.message) && !Storable(e.packet.message))
      || (e.Insert? && e.packet.Decodes? && Storable(e.packet.message) &&
          (expired || |TouchedSince(CacheStep(c, capacity, e).log, key) - {key}| >= capacity))
  {
    var c := CacheRun(capacity, history);
    if e.Insert? && e.packet.Decodes? && Storable(e.packet.message) {
      if Has(Swept(c.items, e.now), key) {
        EvictionIsLeastRecentlyUsed(capacity, history, e, key);
      } else {
        SweptEntryHadExpired(c.items, e.now, key);
      }
    } else if e.Get? {
      ReadersLoseOnlyExpired(c, e.key, e.allowStale, e.now, key);
    } else if e.packet.Decodes? {
      UnstorableRepliesLoseOnlyTheirKey(c, capacity, e.key, e.packet.message, e.now, key);
    }
  }

  lemma ReadersLoseOnlyExpired(c: Cache, used: RawKey, allowStale: bool, now: Time, key: RawKey)
    requires Has(c.items, key) && !Has(GetMessage(c, used, allowStale, now).items, key)
    ensures used == key && !allowStale && Expired(Lookup(c.items, key).value, now)
  {
    TouchedIsFirst(c.items, key);
    if used != key {
      OthersStay(c.items, used, key);
      OthersStay(Touch(c.items, used), used, key);
    }
  }

  /** A strict reader that finds its key expired throws it out; no reader does anything else to the keys. */
  lemma ReadForgetsExactlyExpired(c: Cache, used: RawKey, allowStale: bool, now: Time, key: RawKey)
    ensures Has(GetMessage(c, used, allowStale, now).items, key) <==>
              && Has(c.items, key)
              && !(used == key && !allowStale && Expired(Lookup(c.items, key).value, now))
  {
    var after := GetMessage(c, used, allowStale, now).items;
    HasMeansIn(after, key);
    HasMeansIn(c.items, key);
    if Has(c.items, key) && !Has(after, key) {
      ReadersLoseOnlyExpired(c, used, allowStale, now, key);
    }
  }

  lemma SweptIsGone(items: Items, now: Time, i: nat)
    requires Distinct(items) && i < |items| && i < EXPIRATION_SWEEP_BUDGET && Expired(items[i].value, now)
    ensures !Has(Swept(items, now), items[i].key)
  {
    var swept := Swept(items, now);
    SweepIsExact(items, EXPIRATION_SWEEP_BUDGET, (v: CachedPacket) => Expired(v, now), i);
    forall j | 0 <= j < |swept|
      ensures swept[j].key != items[i].key
    {
      assert swept[j] in items;
      var k := IndexOf(items, swept[j]);
      assert swept[j] in swept;
    }
  }

  lemma PutBringsOneKey(items: Items, capacity: nat, key: RawKey, value: CachedPacket, other: RawKey)
    requires other != key && !Has(items, other)
    ensures !Has(Put(items, capacity, key, value), other)
  {
    HasMeansIn(items, other);
    HasMeansIn(Put(items, capacity, key, value), other);
  }

  /** Storing a reply throws out every expired entry among the recently used ones the sweep looks at. */
  lemma StoreSweeps(capacity: nat, history: seq<CacheEvent>, e: CacheEvent, i: nat)
    requires e.Insert? && e.packet.Decodes? && Storable(e.packet.message)
    requires var items := CacheRun(capacity, history).items;
      && i < |items| && i < EXPIRATION_SWEEP_BUDGET
      && Expired(items[i].value, e.now) && items[i].key != e.key
    ensures var c := CacheRun(capacity, history); !Has(CacheStep(c, capacity, e).items, c.items[i].key)
  {
    var c := CacheRun(capacity, history);
    CacheInvariant(capacity, history);
    RecencyIsDistinct(c.items, c.log);
    SweptIsGone(c.items, e.now, i);
    PutBringsOneKey(Swept(c.items, e.now), capacity, e.key,
                    Entry(e.packet.message, RawCacheTtl(e.packet.message).value, e.now), c.items[i].key);
  }

  lemma UnstorableRepliesLoseOnlyTheirKey(c: Cache, capacity: nat, used: RawKey, m: Message, now: Time, key: RawKey)
    requires !Storable(m) && Has(c.items, key) && !Has(InsertMessage(c, capacity, used, m, now).items, key)
    ensures used == key && Decisive(m)
  {
    if used != key {
      OthersStay(c.items, used, key);
    }
  }

  /** A stored reply is there for the next reader. */
  lemma StoredIsFound(c: Cache, capacity: nat, key: RawKey, m: Message, now: Time)
    requires capacity > 0 && Storable(m)
    ensures var c' := CacheStep(c, capacity, Insert(key, Decodes(m), now));
      Lookup(c'.items, key) == Some(Entry(m, RawCacheTtl(m).value, now))
  {
  }

  /** A key is touched when it is found by a reader and when a reply is stored under it. */
  ghost function Touches(capacity: nat, history: seq<CacheEvent>): seq<RawKey> {
    if history == [] then []
    else
      var past, e := history[..|history| - 1], history[|history| - 1];
      var stored := e.Insert? && e.packet.Decodes? && Storable(e.packet.message);
      var found := e.Get? && Has(CacheRun(capacity, past).items, e.key);
      Touches(capacity, past) + if stored || found then [e.key] else []
  }

  /** The order of use behind the eviction theorems is the order of hits and stores, nothing else. */
  lemma {:induction false} LogIsTouches(capacity: nat, history: seq<CacheEvent>)
    ensures CacheRun(capacity, history).log == Touches(capacity, history)
  {
    if history != [] {
      LogIsTouches(capacity, history[..|history| - 1]);
    }
  }

  /** A whole answer or denial without a usable lifetime supersedes what was cached. */
  lemma SupersededIsGone(c: Cache, capacity: nat, key: RawKey, m: Message, now: Time)
    requires !m.metadata.truncation && (m.metadata.responseCode.NoError? || m.metadata.responseCode.NXDomain?)
    requires RawCacheTtl(m).None? || RawCacheTtl(m).value.ttl == 0
    ensures !Has(CacheStep(c, capacity, Insert(key, Decodes(m), now)).items, key)
  {
  }

  /** Only a truncated reply or another response code is transient. */
  lemma TransientExactly(m: Message)
    ensures !Decisive(m) <==> m.metadata.truncation || m.metadata.responseCode.OtherCode?
  {
  }

  // ----------------------------------------------------------- served TTL

  /** No answer and no negative TTL is shorter than the lifetime. */
  lemma LifetimeBounds(m: Message)
    requires RawCacheTtl(m).Some?
    ensures var life := RawCacheTtl(m).value;
      && (forall r :: r in m.answers ==> life.ttl <= r.ttl)
      && (life.negativeTtl.Some? ==> life.ttl <= life.negativeTtl.value)
      && (forall r :: r in m.authorities && r.data.Soa? ==>
            && life.negativeTtl.Some?
            && life.negativeTtl.value <= r.ttl && life.negativeTtl.value <= r.data.minimum)
  {
  }

  lemma FreshElapsed(m: Message, life: Lifetime, at: Time, now: Time)
    requires !Expired(Entry(m, life, at), now)
    ensures Elapsed(at, now) < life.ttl || life.ttl == 0
    ensures now >= at ==> Elapsed(at, now) == (now - at) / NANOS_PER_SECOND
  {
    if now >= at {
      assert now - at < life.ttl * NANOS_PER_SECOND;
      assert (now - at) / NANOS_PER_SECOND < life.ttl;
    }
  }

  /**
   * While a stored packet is fresh, every answer and every authority SOA is
   * served with at least one second to live, and every authority SOA with
   * exactly the negative TTL less the seconds elapsed.
   */
  lemma FreshPacketsServePositiveTtls(m: Message, at: Time, now: Time)
    requires Storable(m) && !Expired(Entry(m, RawCacheTtl(m).value, at), now)
    ensures var negative := RawCacheTtl(m).value.negativeTtl;
      var served := Aged(m, Elapsed(at, now), false, negative);
      && (forall i :: 0 <= i < |served.answers| ==> served.answers[i].ttl >= 1)
      && (forall i :: 0 <= i < |served.authorities| && served.authorities[i].data.Soa? ==>
            && negative.Some?
            && served.authorities[i].ttl == negative.value - Elapsed(at, now) >= 1)
  {
    var life := RawCacheTtl(m).value;
    var served := Aged(m, Elapsed(at, now), false, life.negativeTtl);
    LifetimeBounds(m);
    FreshElapsed(m, life, at, now);
    forall i | 0 <= i < |served.answers|
      ensures served.answers[i].ttl >= 1
    {
      assert m.answers[i] in m.answers;
    }
    forall i | 0 <= i < |served.authorities| && served.authorities[i].data.Soa?
      ensures life.negativeTtl.Some? && served.authorities[i].ttl == life.negativeTtl.value - Elapsed(at, now) >= 1
    {
      assert m.authorities[i] in m.authorities;
    }
  }

  /** When a reply may be cached at all, and that its lifetime is one of the TTLs that bound it. */
  lemma LifetimeIsAttained(m: Message)
    ensures RawCacheTtl(m).Some? <==>
      && !m.metadata.truncation
      && (|| (m.metadata.responseCode.NoError? && m.answers != [])
          || ((m.metadata.responseCode.NoError? || m.metadata.responseCode.NXDomain?)
              && exists r :: r in m.authorities && r.data.Soa?))
    ensures RawCacheTtl(m).Some? ==>
      var life := RawCacheTtl(m).value;
      && (|| (exists r :: r in m.answers && life.ttl == r.ttl)
          || (exists r :: r in m.authorities && r.data.Soa? && life.ttl == Min(r.ttl, r.data.minimum)))
      && (life.negativeTtl.Some? <==> exists r :: r in m.authorities && r.data.Soa?)
      && (life.negativeTtl.Some? ==>
            exists r :: r in m.authorities && r.data.Soa? && life.negativeTtl.value == Min(r.ttl, r.data.minimum))
  {
    var answer, negative := AnswerTtl(m.answers), NegativeTtl(m.authorities);
    if answer.Some? {
      var i :| 0 <= i < |m.answers| && answer.value == m.answers[i].ttl;
      assert m.answers[i] in m.answers;
    }
    if negative.Some? {
      var i :| 0 <= i < |m.authorities| && m.authorities[i].data.Soa?
        && negative.value == Min(m.authorities[i].ttl, m.authorities[i].data.minimum);
      assert m.authorities[i] in m.authorities;
    }
  }

  /** Elapsed time is the whole seconds since the entry was cached, cut at 32 bits. */
  lemma ElapsedIsWholeSeconds(at: Time, now: Time)
    ensures now <= at ==> Elapsed(at, now) == 0
    ensures now >= at && (now - at) / NANOS_PER_SECOND < 0x1_0000_0000 ==>
              Elapsed(at, now) * NANOS_PER_SECOND <= now - at < (Elapsed(at, now) + 1) * NANOS_PER_SECOND
    ensures now >= at && (now - at) / NANOS_PER_SECOND >= 0x1_0000_0000 ==> Elapsed(at, now) == 0xffff_ffff
  {
  }

  /** A stored packet is fresh exactly until its lifetime has passed. */
  lemma FreshExactly(m: Message, life: Lifetime, at: Time, now: Time)
    ensures Expired(Entry(m, life, at), now) <==> now >= at + life.ttl * NANOS_PER_SECOND
    ensures Entry(m, life, at).message == m && Entry(m, life, at).cachedAt == at
    ensures Entry(m, life, at).negativeTtl == life.negativeTtl
  {
  }

  /** A SOA that the negative TTL holds down. */
  predicate HeldDown(r: Record, negative: Option<U32>) {
    r.data.Soa? && negative.Some? && negative.value < r.ttl
  }

  /**
   * Ageing is exact. While a stored packet is fresh every answer has lost
   * exactly the elapsed seconds, unless it is a SOA held down by the negative
   * TTL, which then stands in for its own. Authority and additional records
   * lose exactly the elapsed seconds or have reached zero. Nothing else changes.
   */
  lemma FreshPacketsAgeExactly(m: Message, at: Time, now: Time)
    requires Storable(m) && !Expired(Entry(m, RawCacheTtl(m).value, at), now)
    ensures var negative := RawCacheTtl(m).value.negativeTtl; var elapsed := Elapsed(at, now);
      var served := Aged(m, elapsed, false, negative);
      && m == served.(answers := m.answers, authorities := m.authorities, additionals := m.additionals)
      && |served.answers| == |m.answers| && |served.authorities| == |m.authorities|
      && |served.additionals| == |m.additionals|
      && (forall i :: 0 <= i < |m.answers| ==>
            && served.answers[i] == m.answers[i].(ttl := served.answers[i].ttl)
            && served.answers[i].ttl + elapsed
                 == if HeldDown(m.answers[i], negative) then negative.value else m.answers[i].ttl)
      && (forall i :: 0 <= i < |m.authorities| ==>
            AgedExactly(m.authorities[i], served.authorities[i], elapsed, negative))
      && (forall i :: 0 <= i < |m.additionals| ==>
            AgedExactly(m.additionals[i], served.additionals[i], elapsed, negative))
  {
    var life := RawCacheTtl(m).value;
    LifetimeBounds(m);
    FreshElapsed(m, life, at, now);
    forall i | 0 <= i < |m.answers|
      ensures life.ttl <= m.answers[i].ttl
    {
      assert m.answers[i] in m.answers;
    }
  }

  predicate AgedExactly(before: Record, after: Record, elapsed: U32, negative: Option<U32>) {
    && after == before.(ttl := after.ttl)
    && var start: int := if HeldDown(before, negative) then negative.value else before.ttl;
    if elapsed <= start then after.ttl + elapsed == start else after.ttl == 0
  }

  lemma AgedTtlFalls(r: Record, elapsed: U32, later: U32, stale: bool, negativeTtl: Option<U32>)
    requires elapsed <= later
    ensures AgedTtl(r, later, stale, negativeTtl) <= AgedTtl(r, elapsed, false, negativeTtl) <= r.ttl
  {
  }

  lemma ElapsedGrows(at: Time, now: Time, later: Time)
    requires now <= later
    ensures Elapsed(at, now) <= Elapsed(at, later)
  {
  }

  /** The served TTL of every record never grows with time, and a stale packet carries only zeros. */
  lemma ServedTtlsNeverGrow(m: Message, at: Time, now: Time, later: Time, stale: bool, negativeTtl: Option<U32>)
    requires now <= later
    ensures var first := Aged(m, Elapsed(at, now), false, negativeTtl);
      var second := Aged(m, Elapsed(at, later), stale, negativeTtl);
      && (forall i :: 0 <= i < |m.answers| ==>
            second.answers[i].ttl <= first.answers[i].ttl <= m.answers[i].ttl)
      && (forall i :: 0 <= i < |m.authorities| ==>
            second.authorities[i].ttl <= first.authorities[i].ttl <= m.authorities[i].ttl)
      && (forall i :: 0 <= i < |m.additionals| ==>
            second.additionals[i].ttl <= first.additionals[i].ttl <= m.additionals[i].ttl)
      && (stale ==> forall r :: r in second.answers + second.authorities + second.additionals ==> r.ttl == 0)
  {
    ElapsedGrows(at, now, later);
    forall r: Record
      ensures AgedTtl(r, Elapsed(at, later), stale, negativeTtl)
              <= AgedTtl(r, Elapsed(at, now), false, negativeTtl) <= r.ttl
    {
      AgedTtlFalls(r, Elapsed(at, now), Elapsed(at, later), stale, negativeTtl);
    }
  }

  // ---------------------------------------------------------------- class

  lemma RunGrows(capacity: nat, history: seq<CacheEvent>, event: CacheEvent)
    ensures CacheRun(capacity, history + [event]) == CacheStep(CacheRun(capacity, history), capacity, event)
  {
    assert (history + [event])[..|history|] == history;
  }

  class DnsCache {
    const entries: LruMap<RawKey, CachedPacket>
    ghost var history: seq<CacheEvent>

    ghost predicate Valid()
      reads this, entries
    {
      && entries.Valid()
      && entries.items == CacheRun(entries.capacity, history).items
    }

    constructor (maxEntries: nat)
      ensures Valid() && fresh(this) && fresh(entries)
      ensures history == [] && entries.capacity == maxEntries
    {
      entries := new LruMap(maxEntries);
      history := [];
    }

    /** A cache without room is refused. */
    static method New(maxEntries: nat) returns (r: Result<DnsCache, ErrorKind>)
      ensures r == Err(InvalidInput) <==> maxEntries == 0
      ensures r.Ok? ==> r.value.Valid() && r.value.history == [] && r.value.entries.capacity == maxEntries
      ensures r.Ok? ==> fresh(r.value) && fresh(r.value.entries)
    {
      if maxEntries == 0 {
        return Err(InvalidInput);
      }
      var cache := new DnsCache(maxEntries);
      return Ok(cache);
    }

    /** The part under the lock: a hit is touched, or removed when it is expired and staleness is not allowed. */
    method ReadEntry(key: RawKey, allowStale: bool, now: Time) returns (entry: Option<CachedPacket>, stale: bool)
      requires entries.Valid()
      modifies entries
      ensures entries.Valid()
      ensures forall log :: entries.items == GetMessage(Cache(old(entries.items), log), key, allowStale, now).items
      ensures entry.Some? ==> entry == Lookup(old(entries.items), key) && stale == Expired(entry.value, now)
      ensures entry.Some? && stale ==> allowStale
      ensures entry.None? ==>
        match Lookup(old(entries.items), key)
        case None => true
        case Some(e) => Expired(e, now) && !allowStale
    {
      entry := entries.GetCloned(key);
      if entry.None? {
        return None, false;
      }
      stale := entry.value.expiresAt <= now;
      if stale && !allowStale {
        var _ := entries.Remove(key);
        return None, true;
      }
    }

    method GetPacket(key: RawKey, allowStale: bool, now: Time) returns (r: Option<(Message, bool)>)
      requires Valid()
      modifies this, entries
      ensures Valid() && history == old(history) + [Get(key, allowStale, now)]
      ensures r == Serve(old(entries.items), key, allowStale, now)
      ensures var hit := LastDecisive(old(history), key);
        r.Some? ==>
          && hit.Some?
          && var (m, at) := hit.value;
          && Storable(m)
          && var entry := Entry(m, RawCacheTtl(m).value, at);
          && r.value.1 == Expired(entry, now)
          && (r.value.1 ==> allowStale)
          && r.value.0 == Aged(m, Elapsed(at, now), r.value.1, entry.negativeTtl)
      ensures r.None? ==>
        match old(Lookup(entries.items, key))
        case None => true
        case Some(entry) => Expired(entry, now) && !allowStale
    {
      HitIsLastDecisive(entries.capacity, history, key);
      RunGrows(entries.capacity, history, Get(key, allowStale, now));
      var entry, stale := ReadEntry(key, allowStale, now);
      history := history + [Get(key, allowStale, now)];
      if entry.None? {
        return None;
      }
      var aged := AgeRawPacket(entry.value.message, entry.value.cachedAt, now, stale, entry.value.negativeTtl);
      return Some((aged, stale));
    }

    /** Malformed packets are refused; the rest of the work is `InsertMessage`. */
    method InsertPacket(key: RawKey, packet: Packet, now: Time) returns (r: Result<(), ErrorKind>)
      requires Valid()
      modifies this, entries
      ensures Valid() && history == old(history) + [Insert(key, packet, now)]
      ensures r.Ok? <==> packet.Decodes?
      ensures r.Err? ==> r.error == Protocol
    {
      var event := Insert(key, packet, now);
      assert (history + [event])[..|history|] == history;
      history := history + [event];
      if packet.Malformed? {
        return Err(Protocol);
      }
      var life := RawCacheTtl(packet.message);
      if life.None? {
        if Decisive(packet.message) {
          var _ := entries.Remove(key);
        }
        return Ok(());
      }
      if life.value.ttl == 0 {
        var _ := entries.Remove(key);
        return Ok(());
      }
      Store(key, Entry(packet.message, life.value, now), now);
      return Ok(());
    }

    method Store(key: RawKey, entry: CachedPacket, now: Time)
      requires entries.Valid()
      modifies entries
      ensures entries.Valid() && entries.items == Put(Swept(old(entries.items), now), entries.capacity, key, entry)
    {
      entries.RemoveExpired(EXPIRATION_SWEEP_BUDGET, (e: CachedPacket) => Expired(e, now));
      entries.Insert(key, entry);
    }
  }
}
