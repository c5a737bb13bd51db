/** The two-index table as it is stored, refining the one-map specification. */
module NatIndexes {
  import opened Common
  import opened NatTables

  type Reverse = map<EndpointKey, BindingKey>

  function EndpointOf(b: Bindings, k: BindingKey): EndpointKey
    requires k in b
  {
    EndpointKey(k.network, b[k].entry.translated)
  }

  /** The forward and the reverse index are mutual inverses. */
  ghost predicate Inverse(b: Bindings, r: Reverse) {
    && (forall k :: k in b ==> EndpointOf(b, k) in r && r[EndpointOf(b, k)] == k)
    && (forall e :: e in r ==> r[e] in b && EndpointOf(b, r[e]) == e)
  }

  /** Every logical flow of the table: the gauge counts these. */
  ghost function Flows(b: Bindings): set<NatKey> {
    set k, d | k in b && d in b[k].destinations :: NatKey(k.network, k.source, d)
  }

  ghost function FlowsOf(k: BindingKey, destinations: set<SocketAddr>): set<NatKey> {
    set d | d in destinations :: NatKey(k.network, k.source, d)
  }

  lemma {:induction false} FlowsOfSize(k: BindingKey, destinations: set<SocketAddr>)
    ensures |FlowsOf(k, destinations)| == |destinations|
  {
    if destinations == {} {
      assert FlowsOf(k, destinations) == {};
    } else {
      var d :| d in destinations;
      FlowsOfSize(k, destinations - {d});
      assert FlowsOf(k, destinations) == FlowsOf(k, destinations - {d}) + {NatKey(k.network, k.source, d)};
    }
  }

  lemma FlowsSplit(b: Bindings, k: BindingKey)
    requires k in b
    ensures |Flows(b)| == |Flows(b - {k})| + |b[k].destinations|
  {
    assert Flows(b) == Flows(b - {k}) + FlowsOf(k, b[k].destinations);
    assert Flows(b - {k}) !! FlowsOf(k, b[k].destinations);
    FlowsOfSize(k, b[k].destinations);
  }

  /** Replacing or adding one binding changes the flow count by its own destinations only. */
  lemma FlowsUpdate(b: Bindings, k: BindingKey, binding: Binding)
    ensures |Flows(b[k := binding])| == |Flows(b - {k})| + |binding.destinations|
    ensures k !in b ==> b - {k} == b
  {
    assert b[k := binding] - {k} == b - {k};
    FlowsSplit(b[k := binding], k);
  }

  lemma GaugeAfterAdding(b: Bindings, k: BindingKey, binding: Binding, d: SocketAddr)
    requires k in b && binding.destinations == b[k].destinations + {d}
    ensures |Flows(b[k := binding])| == |Flows(b)| + if d in b[k].destinations then 0 else 1
  {
    FlowsSplit(b, k);
    FlowsUpdate(b, k, binding);
    if d in b[k].destinations {
      assert binding.destinations == b[k].destinations;
    }
  }

  lemma GaugeAfterDropping(b: Bindings, k: BindingKey, binding: Binding, d: SocketAddr)
    requires k in b && binding.destinations == b[k].destinations - {d}
    ensures |Flows(b)| == |Flows(b[k := binding])| + if d in b[k].destinations then 1 else 0
  {
    FlowsSplit(b, k);
    FlowsUpdate(b, k, binding);
    if d !in b[k].destinations {
      assert binding.destinations == b[k].destinations;
    }
  }

  /** Reverse lookup equals a linear search. */
  lemma ReverseLookupIsSearch(b: Bindings, r: Reverse, network: Network, address: SocketAddr)
    requires Inverse(b, r)
    ensures EndpointKey(network, address) in r <==> Taken(b, network, address)
    ensures EndpointKey(network, address) in r ==> OwnerOf(b, network, address) == r[EndpointKey(network, address)]
    ensures Injective(b)
  {
    var e := EndpointKey(network, address);
    if e in r {
      assert Behind(b, network, address, r[e]);
    }
    if Taken(b, network, address) {
      var k := OwnerOf(b, network, address);
      assert EndpointOf(b, k) == e;
    }
    forall n, a, j, k | Behind(b, n, a, j) && Behind(b, n, a, k)
      ensures j == k
    {
      assert EndpointOf(b, j) == EndpointOf(b, k);
    }
  }

  lemma {:induction false} InverseSizes(b: Bindings, r: Reverse)
    requires Inverse(b, r)
    ensures |r| == |b|
    decreases |b|
  {
    if b == map[] {
      assert r.Keys == {};
    } else {
      var k :| k in b;
      var e := EndpointOf(b, k);
      RemoveOne(b, k);
      RemoveOne(r, e);
      InverseRemove(b, r, k);
      InverseSizes(b - {k}, r - {e});
    }
  }

  lemma InverseRemove(b: Bindings, r: Reverse, k: BindingKey)
    requires Inverse(b, r) && k in b
    ensures Inverse(b - {k}, r - {EndpointOf(b, k)})
  {
  }

  lemma InverseTouch(b: Bindings, r: Reverse, k: BindingKey, binding: Binding)
    requires Inverse(b, r) && k in b && binding.entry.translated == b[k].entry.translated
    ensures Inverse(b[k := binding], r)
  {
    assert forall j :: j in b ==> EndpointOf(b[k := binding], j) == EndpointOf(b, j);
  }

  lemma InverseAdd(b: Bindings, r: Reverse, k: BindingKey, binding: Binding)
    requires Inverse(b, r) && k !in b && EndpointKey(k.network, binding.entry.translated) !in r
    ensures Inverse(b[k := binding], r[EndpointKey(k.network, binding.entry.translated) := k])
  {
    assert forall j :: j in b ==> EndpointOf(b[k := binding], j) == EndpointOf(b, j);
  }

  lemma InverseRebind(b: Bindings, r: Reverse, k: BindingKey, binding: Binding)
    requires Inverse(b, r) && k in b
    requires binding.entry.translated != b[k].entry.translated
    requires EndpointKey(k.network, binding.entry.translated) !in r
    ensures Inverse(b[k := binding], (r - {EndpointOf(b, k)})[EndpointKey(k.network, binding.entry.translated) := k])
  {
    assert forall j :: j in b && j != k ==> EndpointOf(b[k := binding], j) == EndpointOf(b, j);
  }

  // ---------------------------------------------------------------- sweep

  ghost predicate NoDuplicates<T>(s: seq<T>) {
    forall i, j :: 0 <= i < j < |s| ==> s[i] != s[j]
  }

  lemma {:induction false} NoDuplicatesSize<T>(s: seq<T>)
    requires NoDuplicates(s)
    ensures |Elements(s)| == |s|
  {
    if s != [] {
      var front, last := s[..|s| - 1], s[|s| - 1];
      NoDuplicatesSize(front);
      assert Elements(s) == Elements(front) + {last};
    }
  }

  lemma NoDuplicatesConcat<T>(a: seq<T>, b: seq<T>)
    requires NoDuplicates(a) && NoDuplicates(b) && Elements(a) !! Elements(b)
    ensures NoDuplicates(a + b) && Elements(a + b) == Elements(a) + Elements(b)
  {
    forall i, j | 0 <= i < j < |a + b|
      ensures (a + b)[i] != (a + b)[j]
    {
      if i < |a| <= j {
        assert a[i] in Elements(a) && b[j - |a|] in Elements(b);
      }
    }
  }

  /** One binding's flows, each once, in whatever order the set gives them. */
  method KeysOf(k: BindingKey, destinations: set<SocketAddr>) returns (keys: seq<NatKey>)
    ensures NoDuplicates(keys) && Elements(keys) == FlowsOf(k, destinations)
  {
    keys := [];
    var rest := destinations;
    while rest != {}
      invariant rest <= destinations
      invariant NoDuplicates(keys) && Elements(keys) == FlowsOf(k, destinations - rest)
    {
      var d :| d in rest;
      var key := NatKey(k.network, k.source, d);
      assert Elements([key]) == {key};
      NoDuplicatesConcat(keys, [key]);
      assert FlowsOf(k, destinations - (rest - {d})) == FlowsOf(k, destinations - rest) + {key};
      keys := keys + [key];
      rest := rest - {d};
    }
    assert destinations - {} == destinations;
  }

  ghost function Restrict(b: Bindings, ks: set<BindingKey>): Bindings {
    map k | k in b && k in ks :: b[k]
  }

  /** The expired bindings and every flow they carry, each listed once. */
  method CollectExpired(b: Bindings, now: Time) returns (expired: seq<BindingKey>, keys: seq<NatKey>)
    ensures NoDuplicates(expired) && Elements(expired) == ExpiredKeys(b, now)
    ensures NoDuplicates(keys) && Elements(keys) == Flows(Restrict(b, ExpiredKeys(b, now)))
  {
    expired, keys := [], [];
    var rest := b.Keys;
    while rest != {}
      invariant rest <= b.Keys
      invariant NoDuplicates(expired) && Elements(expired) == ExpiredKeys(b, now) - rest
      invariant NoDuplicates(keys) && Elements(keys) == Flows(Restrict(b, ExpiredKeys(b, now) - rest))
    {
      var k :| k in rest;
      if Expired(b[k].entry, now) {
        var flows := KeysOf(k, b[k].destinations);
        CollectStep(b, ExpiredKeys(b, now) - rest, k);
        assert Elements([k]) == {k};
        NoDuplicatesConcat(expired, [k]);
        NoDuplicatesConcat(keys, flows);
        expired := expired + [k];
        keys := keys + flows;
        assert ExpiredKeys(b, now) - (rest - {k}) == (ExpiredKeys(b, now) - rest) + {k};
      } else {
        assert ExpiredKeys(b, now) - (rest - {k}) == ExpiredKeys(b, now) - rest;
      }
      rest := rest - {k};
    }
    assert ExpiredKeys(b, now) - {} == ExpiredKeys(b, now);
  }

  lemma CollectStep(b: Bindings, done: set<BindingKey>, k: BindingKey)
    requires k in b && k !in done
    ensures Flows(Restrict(b, done + {k})) == Flows(Restrict(b, done)) + FlowsOf(k, b[k].destinations)
    ensures Flows(Restrict(b, done)) !! FlowsOf(k, b[k].destinations)
  {
  }

  class NatTable {
    var entries: Bindings
    var translated: Reverse
    var activeDestinations: nat
    var metrics: Metrics
    /** The operations so far. */
    ghost var history: seq<NatOp>

    /** The indexes and the gauge agree; bindings may be momentarily empty. */
    ghost predicate Coherent()
      reads this
    {
      Inverse(entries, translated) && activeDestinations == |Flows(entries)|
    }

    ghost predicate Valid()
      reads this
    {
      Coherent() && Abs() == SpecRun(history)
    }

    /** The table as the one-map specification sees it. */
    ghost function Abs(): Nat
      reads this
    {
      Nat(entries, metrics)
    }

    constructor ()
      ensures Valid() && fresh(this) && history == []
    {
      history := [];
      entries, translated, activeDestinations := map[], map[], 0;
      metrics := Metrics(0, 0, 0, 0, 0, 0, 0, 0, 0);
      new;
      assert Flows(map[]) == {};
    }

    method RemoveBinding(k: BindingKey) returns (r: Option<Binding>)
      requires Coherent()
      modifies this
      ensures Coherent() && metrics == old(metrics) && history == old(history)
      ensures entries == old(entries) - {k}
      ensures r == if k in old(entries) then Some(old(entries)[k]) else None
    {
      if k !in entries {
        assert entries == entries - {k};
        return None;
      }
      var binding := entries[k];
      InverseRemove(entries, translated, k);
      FlowsSplit(entries, k);
      translated := translated - {EndpointKey(k.network, binding.entry.translated)};
      entries := entries - {k};
      activeDestinations := activeDestinations - |binding.destinations|;
      return Some(binding);
    }

    /** What all five expiry paths do. */
    method ExpireBinding(k: BindingKey)
      requires Coherent() && k in entries
      modifies this
      ensures Coherent() && history == old(history) && Abs() == Expire(old(Abs()), k)
    {
      var _ := RemoveBinding(k);
      metrics := metrics.(expiredBindings := metrics.expiredBindings + 1);
    }

    /** Add a destination to a live binding and stamp it, as `insert` and `touch` both do. */
    method AddDestination(k: BindingKey, destination: SocketAddr, now: Time) returns (entry: NatEntry)
      requires Coherent() && k in entries
      modifies this
      ensures Coherent() && metrics == old(metrics) && history == old(history)
      ensures entries == old(entries)[k := Refresh(old(entries)[k], now, {destination})]
      ensures entry == entries[k].entry
    {
      var binding := entries[k];
      var updated := Binding(binding.entry.(lastSeen := now), binding.destinations + {destination});
      InverseTouch(entries, translated, k, updated);
      GaugeAfterAdding(entries, k, updated, destination);
      if destination !in binding.destinations {
        activeDestinations := activeDestinations + 1;
      }
      entries := entries[k := updated];
      return updated.entry;
    }

    /** Take one destination out of a binding, which this may leave empty for a moment. */
    method DropDestination(k: BindingKey, destination: SocketAddr) returns (left: set<SocketAddr>)
      requires Coherent() && k in entries
      modifies this
      ensures Coherent() && metrics == old(metrics) && history == old(history)
      ensures left == old(entries)[k].destinations - {destination}
      ensures entries == old(entries)[k := old(entries)[k].(destinations := left)]
    {
      var binding := entries[k];
      left := binding.destinations - {destination};
      InverseTouch(entries, translated, k, binding.(destinations := left));
      GaugeAfterDropping(entries, k, binding.(destinations := left), destination);
      if destination in binding.destinations {
        activeDestinations := activeDestinations - 1;
      }
      entries := entries[k := binding.(destinations := left)];
    }

    /** Stamp a live binding without touching its destinations. */
    method Restamp(k: BindingKey, now: Time)
      requires Coherent() && k in entries
      modifies this
      ensures Coherent() && metrics == old(metrics) && history == old(history)
      ensures entries == old(entries)[k := Refresh(old(entries)[k], now, {})]
    {
      var binding := Refresh(entries[k], now, {});
      InverseTouch(entries, translated, k, binding);
      FlowsSplit(entries, k);
      FlowsUpdate(entries, k, binding);
      entries := entries[k := binding];
    }

    /** A new binding on a free endpoint. */
    method Allocate(k: BindingKey, endpoint: SocketAddr, destination: SocketAddr, idleTimeout: nat, now: Time)
      requires Coherent() && k !in entries && EndpointKey(k.network, endpoint) !in translated
      modifies this
      ensures Coherent() && metrics == old(metrics) && history == old(history)
      ensures entries == old(entries)[k := Binding(NatEntry(endpoint, now, now, idleTimeout), {destination})]
    {
      var binding := Binding(NatEntry(endpoint, now, now, idleTimeout), {destination});
      InverseAdd(entries, translated, k, binding);
      FlowsUpdate(entries, k, binding);
      entries := entries[k := binding];
      translated := translated[EndpointKey(k.network, endpoint) := k];
      activeDestinations := activeDestinations + 1;
    }

    /** A reverse hit stamps the binding and picks one of its destinations. */
    method HitBinding(k: BindingKey, later: Time) returns (destination: SocketAddr)
      requires Coherent() && k in entries && entries[k].destinations != {}
      modifies this
      ensures Coherent() && history == old(history)
      ensures Abs() == Nat(old(entries)[k := Refresh(old(entries)[k], later, {})],
                           old(metrics).(reverseHits := old(metrics).reverseHits + 1))
      ensures destination in old(entries)[k].destinations
    {
      destination :| destination in entries[k].destinations;
      Restamp(k, later);
      metrics := metrics.(reverseHits := metrics.reverseHits + 1);
    }

    method Insert(key: NatKey, endpoint: SocketAddr, idleTimeout: nat, now: Time) returns (r: Result<(), ErrorKind>)
      requires Valid()
      modifies this
      ensures Valid() && history == old(history) + [InsertOp(key, endpoint, idleTimeout, now)]
      ensures (Abs(), r) == SpecInsert(old(Abs()), key, endpoint, idleTimeout, now)
    {
      SpecRunStep(history, InsertOp(key, endpoint, idleTimeout, now));
      history := history + [InsertOp(key, endpoint, idleTimeout, now)];
      if idleTimeout == 0 {
        return Err(InvalidInput);
      }
      var k := KeyOf(key);
      ReverseLookupIsSearch(entries, translated, key.network, endpoint);
      if k in entries {
        if entries[k].entry.translated != endpoint {
          return Err(InvalidInput);
        }
        var _ := AddDestination(k, key.destination, now);
        metrics := metrics.(reuses := metrics.reuses + 1);
        return Ok(());
      }
      var e := EndpointKey(key.network, endpoint);
      if e in translated && translated[e] != k {
        return Err(InvalidInput);
      }
      Allocate(k, endpoint, key.destination, idleTimeout, now);
      metrics := metrics.(allocations := metrics.allocations + 1);
      return Ok(());
    }

    method Touch(key: NatKey, now: Time, later: Time) returns (r: Option<NatEntry>)
      requires Valid()
      modifies this
      ensures Valid() && history == old(history) + [TouchOp(key, now, later)]
      ensures (Abs(), r) == SpecTouch(old(Abs()), key, now, later)
    {
      var k := KeyOf(key);
      SpecRunStep(history, TouchOp(key, now, later));
      history := history + [TouchOp(key, now, later)];
      if k in entries && Expired(entries[k].entry, now) {
        ExpireBinding(k);
        metrics := metrics.(touchMisses := metrics.touchMisses + 1);
        return None;
      }
      if k !in entries {
        metrics := metrics.(touchMisses := metrics.touchMisses + 1);
        return None;
      }
      var entry := AddDestination(k, key.destination, later);
      metrics := metrics.(touchHits := metrics.touchHits + 1);
      return Some(entry);
    }

    method BindTranslated(k: BindingKey, endpoint: SocketAddr, now: Time) returns (r: Result<NatEntry, ErrorKind>)
      requires Valid()
      modifies this
      ensures Valid() && history == old(history) + [BindOp(k, endpoint, now)]
      ensures (Abs(), r) == SpecBind(old(Abs()), k, endpoint, now)
    {
      ReverseLookupIsSearch(entries, translated, k.network, endpoint);
      SpecRunStep(history, BindOp(k, endpoint, now));
      history := history + [BindOp(k, endpoint, now)];
      if k in entries && Expired(entries[k].entry, now) {
        ExpireBinding(k);
        return Err(Closed);
      }
      if k !in entries {
        return Err(NotFound);
      }
      var current := entries[k];
      if current.entry.translated == endpoint {
        Restamp(k, now);
        return Ok(entries[k].entry);
      }
      var e := EndpointKey(k.network, endpoint);
      if e in translated && translated[e] != k {
        return Err(InvalidInput);
      }
      var updated := current.(entry := current.entry.(translated := endpoint, lastSeen := now));
      FlowsSplit(entries, k);
      FlowsUpdate(entries, k, updated);
      InverseRebind(entries, translated, k, updated);
      translated := translated - {EndpointKey(k.network, current.entry.translated)};
      translated := translated[e := k];
      metrics := metrics.(translatedRebinds := metrics.translatedRebinds + 1);
      entries := entries[k := updated];
      return Ok(updated.entry);
    }

    method Remove(key: NatKey) returns (r: Option<NatEntry>)
      requires Valid()
      modifies this
      ensures Valid() && history == old(history) + [RemoveOp(key)]
      ensures (Abs(), r) == SpecRemove(old(Abs()), key)
    {
      var k := KeyOf(key);
      SpecRunStep(history, RemoveOp(key));
      history := history + [RemoveOp(key)];
      if k !in entries {
        return None;
      }
      var binding := entries[k];
      var left := DropDestination(k, key.destination);
      if left != {} {
        return Some(binding.entry);
      }
      var _ := RemoveBinding(k);
      assert entries == old(entries) - {k};
      metrics := metrics.(explicitCloses := metrics.explicitCloses + 1);
      return Some(binding.entry);
    }

    method RemoveSource(k: BindingKey) returns (removed: nat)
      requires Valid()
      modifies this
      ensures Valid() && history == old(history) + [RemoveSourceOp(k)]
      ensures (Abs(), removed) == SpecRemoveSource(old(Abs()), k)
    {
      SpecRunStep(history, RemoveSourceOp(k));
      history := history + [RemoveSourceOp(k)];
      var binding := RemoveBinding(k);
      if binding.None? {
        assert old(entries) - {k} == old(entries);
        return 0;
      }
      metrics := metrics.(explicitCloses := metrics.explicitCloses + 1);
      return |binding.value.destinations|;
    }

    method RemoveBindings(expired: seq<BindingKey>)
      requires Coherent()
      modifies this
      ensures Coherent() && metrics == old(metrics) && history == old(history)
      ensures entries == old(entries) - Elements(expired)
    {
      for i := 0 to |expired|
        invariant Coherent() && metrics == old(metrics) && history == old(history)
        invariant entries == old(entries) - Elements(expired[..i])
      {
        var _ := RemoveBinding(expired[i]);
        assert Elements(expired[..i + 1]) == Elements(expired[..i]) + {expired[i]};
      }
      assert expired[..|expired|] == expired;
    }

    /** Remove exactly the expired bindings; report each of their flows once. */
    method SweepKeys(now: Time) returns (keys: seq<NatKey>)
      requires Valid()
      modifies this
      ensures Valid() && history == old(history) + [SweepOp(now)]
      ensures Abs() == SpecSweep(old(Abs()), now)
      ensures NoDuplicates(keys)
      ensures Elements(keys) == Flows(Restrict(old(entries), ExpiredKeys(old(entries), now)))
    {
      var expired;
      expired, keys := CollectExpired(entries, now);
      NoDuplicatesSize(expired);
      RemoveBindings(expired);
      metrics := metrics.(expiredBindings := metrics.expiredBindings + |expired|);
      SpecRunStep(history, SweepOp(now));
      history := history + [SweepOp(now)];
    }

    method Sweep(now: Time) returns (removed: nat)
      requires Valid()
      modifies this
      ensures Valid() && history == old(history) + [SweepOp(now)]
      ensures Abs() == SpecSweep(old(Abs()), now)
      ensures removed == |Flows(Restrict(old(entries), ExpiredKeys(old(entries), now)))|
    {
      var keys := SweepKeys(now);
      NoDuplicatesSize(keys);
      return |keys|;
    }

    /** The lookup under the lock. */
    method FindTranslated(network: Network, address: SocketAddr, now: Time, later: Time) returns (r: Option<NatKey>)
      requires Coherent() && forall k :: k in entries ==> entries[k].destinations != {}
      modifies this
      ensures Coherent() && history == old(history)
      ensures var (n, hit) := SpecLookupTranslated(old(Abs()), network, address, now, later);
        && Abs() == n
        && (r.Some? <==> hit.Some?)
        && (r.Some? ==> KeyOf(r.value) == hit.value && r.value.destination in old(entries)[hit.value].destinations)
    {
      ReverseLookupIsSearch(entries, translated, network, address);
      metrics := metrics.(reverseLookups := metrics.reverseLookups + 1);
      var e := EndpointKey(network, address);
      if e !in translated {
        return None;
      }
      var k := translated[e];
      if k !in entries {
        return None;
      }
      if Expired(entries[k].entry, now) {
        ExpireBinding(k);
        return None;
      }
      var destination := HitBinding(k, later);
      return Some(NatKey(k.network, k.source, destination));
    }

    /** The external source is deliberately not consulted: that is what makes the cone full. */
    method LookupTranslated(network: Network, address: SocketAddr, external: SocketAddr, now: Time, later: Time)
      returns (r: Option<NatKey>)
      requires Valid()
      modifies this
      ensures Valid() && history == old(history) + [LookupTranslatedOp(network, address, now, later)]
      ensures var (n, hit) := SpecLookupTranslated(old(Abs()), network, address, now, later);
        && Abs() == n
        && (r.Some? <==> hit.Some?)
        && (r.Some? ==> KeyOf(r.value) == hit.value && r.value.destination in old(entries)[hit.value].destinations)
    {
      ConservationOverEveryRun(history);
      SpecRunStep(history, LookupTranslatedOp(network, address, now, later));
      r := FindTranslated(network, address, now, later);
      history := history + [LookupTranslatedOp(network, address, now, later)];
    }

    method LookupSource(k: BindingKey, now: Time) returns (r: Option<NatEntry>)
      requires Valid()
      modifies this
      ensures Valid() && history == old(history) + [LookupSourceOp(k, now)]
      ensures (Abs(), r) == SpecLookupSource(old(Abs()), k, now)
    {
      SpecRunStep(history, LookupSourceOp(k, now));
      history := history + [LookupSourceOp(k, now)];
      if k !in entries {
        return None;
      }
      if Expired(entries[k].entry, now) {
        ExpireBinding(k);
        return None;
      }
      return Some(entries[k].entry);
    }

    /** The three gauges agree with the maps they summarise. */
    method Gauges() returns (activeBindings: nat, destinations: nat, reverseMappings: nat)
      requires Valid()
      ensures activeBindings == reverseMappings == |entries|
      ensures destinations == |Flows(entries)|
      ensures metrics.allocations == activeBindings + metrics.expiredBindings + metrics.explicitCloses
    {
      ConservationOverEveryRun(history);
      InverseSizes(entries, translated);
      return |entries|, activeDestinations, |translated|;
    }
  }
}
