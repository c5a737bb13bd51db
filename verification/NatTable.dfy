/** Full-cone NAT as one map of bindings and nine counters, and what every run of operations keeps. */
module NatTables {
  import opened Common

  type Time = nat

  datatype SocketAddr = SocketAddr(ip: nat, port: nat)

  /** One logical flow. */
  datatype NatKey = NatKey(network: Network, source: SocketAddr, destination: SocketAddr)

  /** Full-cone mappings ignore the destination. */
  datatype BindingKey = BindingKey(network: Network, source: SocketAddr)

  datatype EndpointKey = EndpointKey(network: Network, address: SocketAddr)

  datatype NatEntry = NatEntry(translated: SocketAddr, createdAt: Time, lastSeen: Time, idleTimeout: nat)

  datatype Binding = Binding(entry: NatEntry, destinations: set<SocketAddr>)

  type Bindings = map<BindingKey, Binding>

  datatype Metrics = Metrics(
    allocations: nat,
    reuses: nat,
    touchHits: nat,
    touchMisses: nat,
    reverseLookups: nat,
    reverseHits: nat,
    translatedRebinds: nat,
    expiredBindings: nat,
    explicitCloses: nat)

  /** A saturating age against the idle timeout. */
  predicate Expired(entry: NatEntry, now: Time) {
    (if now >= entry.lastSeen then now - entry.lastSeen else 0) >= entry.idleTimeout
  }

  function KeyOf(key: NatKey): BindingKey {
    BindingKey(key.network, key.source)
  }

  // ---------------------------------------------- the one-map specification

  /** What the table is, without indexes: bindings and counters. */
  datatype Nat = Nat(bindings: Bindings, metrics: Metrics)

  function Empty(): Nat {
    Nat(map[], Metrics(0, 0, 0, 0, 0, 0, 0, 0, 0))
  }

  /** A linear search for the binding behind a translated endpoint. */
  ghost predicate Behind(b: Bindings, network: Network, address: SocketAddr, k: BindingKey) {
    k in b && k.network == network && b[k].entry.translated == address
  }

  ghost predicate Taken(b: Bindings, network: Network, address: SocketAddr) {
    exists k :: Behind(b, network, address, k)
  }

  ghost function OwnerOf(b: Bindings, network: Network, address: SocketAddr): (k: BindingKey)
    requires Taken(b, network, address)
    ensures Behind(b, network, address, k)
  {
    var k :| Behind(b, network, address, k); k
  }

  /** No two bindings of one network share a translated endpoint. */
  ghost predicate Injective(b: Bindings) {
    forall network, address, j, k :: Behind(b, network, address, j) && Behind(b, network, address, k) ==> j == k
  }

  ghost predicate WellFormed(b: Bindings) {
    Injective(b) && forall k :: k in b ==> b[k].destinations != {} && b[k].entry.idleTimeout > 0
  }

  function Expire(n: Nat, k: BindingKey): Nat {
    Nat(n.bindings - {k}, n.metrics.(expiredBindings := n.metrics.expiredBindings + 1))
  }

  function Close(n: Nat, k: BindingKey): Nat {
    Nat(n.bindings - {k}, n.metrics.(explicitCloses := n.metrics.explicitCloses + 1))
  }

  function Refresh(binding: Binding, now: Time, added: set<SocketAddr>): Binding {
    Binding(binding.entry.(lastSeen := now), binding.destinations + added)
  }

  ghost function SpecInsert(n: Nat, key: NatKey, translated: SocketAddr, idleTimeout: nat, now: Time)
    : (Nat, Result<(), ErrorKind>)
  {
    var k := KeyOf(key);
    if idleTimeout == 0 then (n, Err(InvalidInput))
    else if k in n.bindings then
      if n.bindings[k].entry.translated != translated then (n, Err(InvalidInput))
      else (Nat(n.bindings[k := Refresh(n.bindings[k], now, {key.destination})],
                n.metrics.(reuses := n.metrics.reuses + 1)), Ok(()))
    else if Taken(n.bindings, key.network, translated) then (n, Err(InvalidInput))
    else (Nat(n.bindings[k := Binding(NatEntry(translated, now, now, idleTimeout), {key.destination})],
              n.metrics.(allocations := n.metrics.allocations + 1)), Ok(()))
  }

  /** `now` is read for the expiry test, `later` for the new timestamp. */
  function SpecTouch(n: Nat, key: NatKey, now: Time, later: Time): (Nat, Option<NatEntry>) {
    var k := KeyOf(key);
    var miss := n.metrics.(touchMisses := n.metrics.touchMisses + 1);
    if k !in n.bindings then (n.(metrics := miss), None)
    else if Expired(n.bindings[k].entry, now) then (Expire(n.(metrics := miss), k), None)
    else
      var binding := Refresh(n.bindings[k], later, {key.destination});
      (Nat(n.bindings[k := binding], n.metrics.(touchHits := n.metrics.touchHits + 1)), Some(binding.entry))
  }

  ghost function SpecBind(n: Nat, k: BindingKey, translated: SocketAddr, now: Time)
    : (Nat, Result<NatEntry, ErrorKind>)
  {
    if k !in n.bindings then (n, Err(NotFound))
    else if Expired(n.bindings[k].entry, now) then (Expire(n, k), Err(Closed))
    else if n.bindings[k].entry.translated == translated then
      var binding := Refresh(n.bindings[k], now, {});
      (n.(bindings := n.bindings[k := binding]), Ok(binding.entry))
    else if Taken(n.bindings, k.network, translated) then (n, Err(InvalidInput))
    else
      var entry := n.bindings[k].entry.(translated := translated, lastSeen := now);
      (Nat(n.bindings[k := n.bindings[k].(entry := entry)],
           n.metrics.(translatedRebinds := n.metrics.translatedRebinds + 1)), Ok(entry))
  }

  function SpecRemove(n: Nat, key: NatKey): (Nat, Option<NatEntry>) {
    var k := KeyOf(key);
    if k !in n.bindings then (n, None)
    else
      var binding := n.bindings[k];
      var left := binding.destinations - {key.destination};
      (if left == {} then Close(n, k) else n.(bindings := n.bindings[k := binding.(destinations := left)]),
       Some(binding.entry))
  }

  function SpecRemoveSource(n: Nat, k: BindingKey): (Nat, nat) {
    if k !in n.bindings then (n, 0) else (Close(n, k), |n.bindings[k].destinations|)
  }

  function ExpiredKeys(b: Bindings, now: Time): set<BindingKey> {
    set k | k in b && Expired(b[k].entry, now)
  }

  function SpecSweep(n: Nat, now: Time): Nat {
    var gone := ExpiredKeys(n.bindings, now);
    Nat(n.bindings - gone, n.metrics.(expiredBindings := n.metrics.expiredBindings + |gone|))
  }

  /** The flow an inbound packet belongs to, whoever sent it. */
  ghost function SpecLookupTranslated(n: Nat, network: Network, address: SocketAddr, now: Time, later: Time)
    : (Nat, Option<BindingKey>)
  {
    var looked := n.(metrics := n.metrics.(reverseLookups := n.metrics.reverseLookups + 1));
    if !Taken(n.bindings, network, address) then (looked, None)
    else
      var k := OwnerOf(n.bindings, network, address);
      if Expired(n.bindings[k].entry, now) then (Expire(looked, k), None)
      else (Nat(n.bindings[k := Refresh(n.bindings[k], later, {})],
                looked.metrics.(reverseHits := n.metrics.reverseHits + 1)), Some(k))
  }

  function SpecLookupSource(n: Nat, k: BindingKey, now: Time): (Nat, Option<NatEntry>) {
    if k !in n.bindings then (n, None)
    else if Expired(n.bindings[k].entry, now) then (Expire(n, k), None)
    else (n, Some(n.bindings[k].entry))
  }

  // ---------------------------------------------------------- every run

  datatype NatOp =
    | InsertOp(key: NatKey, translated: SocketAddr, idleTimeout: nat, now: Time)
    | TouchOp(key: NatKey, now: Time, later: Time)
    | BindOp(binding: BindingKey, translated: SocketAddr, now: Time)
    | RemoveOp(key: NatKey)
    | RemoveSourceOp(binding: BindingKey)
    | SweepOp(now: Time)
    | LookupTranslatedOp(network: Network, address: SocketAddr, now: Time, later: Time)
    | LookupSourceOp(binding: BindingKey, now: Time)

  ghost function SpecStep(n: Nat, op: NatOp): Nat {
    match op
    case InsertOp(key, translated, idleTimeout, now) => SpecInsert(n, key, translated, idleTimeout, now).0
    case TouchOp(key, now, later) => SpecTouch(n, key, now, later).0
    case BindOp(k, translated, now) => SpecBind(n, k, translated, now).0
    case RemoveOp(key) => SpecRemove(n, key).0
    case RemoveSourceOp(k) => SpecRemoveSource(n, k).0
    case SweepOp(now) => SpecSweep(n, now)
    case LookupTranslatedOp(network, address, now, later) => SpecLookupTranslated(n, network, address, now, later).0
    case LookupSourceOp(k, now) => SpecLookupSource(n, k, now).0
  }

  ghost function SpecRun(ops: seq<NatOp>): Nat {
    if ops == [] then Empty() else SpecStep(SpecRun(ops[..|ops| - 1]), ops[|ops| - 1])
  }

  /** Every binding ever allocated is active, expired, or was closed. */
  ghost predicate Conserved(n: Nat) {
    n.metrics.allocations == |n.bindings| + n.metrics.expiredBindings + n.metrics.explicitCloses
  }

  lemma RemoveOne<K, V>(m: map<K, V>, k: K)
    requires k in m
    ensures |m - {k}| == |m| - 1
  {
    assert (m - {k}).Keys == m.Keys - {k};
  }

  lemma RemoveMany<K, V>(m: map<K, V>, ks: set<K>)
    requires ks <= m.Keys
    ensures |m - ks| == |m| - |ks|
  {
    assert (m - ks).Keys == m.Keys - ks;
  }

  lemma UpdateSize<K, V>(m: map<K, V>, k: K, v: V)
    ensures |m[k := v]| == |m| + if k in m then 0 else 1
  {
    assert m[k := v].Keys == m.Keys + {k};
  }

  /** The state invariant of the specification. */
  ghost predicate Sound(n: Nat) {
    WellFormed(n.bindings) && Conserved(n)
  }

  /** `n'` differs from `n` at most at `k`, where a binding left with one count or was updated in place. */
  ghost predicate OneChanged(n: Nat, n': Nat, k: BindingKey) {
    var left := n.metrics.expiredBindings + n.metrics.explicitCloses;
    var left' := n'.metrics.expiredBindings + n'.metrics.explicitCloses;
    && n'.metrics.allocations == n.metrics.allocations
    && (|| (n'.bindings == n.bindings && left' == left)
        || (k in n.bindings && n'.bindings == n.bindings - {k} && left' == left + 1)
        || (&& k in n.bindings && k in n'.bindings
            && n'.bindings == n.bindings[k := n'.bindings[k]] && left' == left
            && Acceptable(n.bindings, k, n'.bindings[k])))
  }

  /** A binding that may stand at `k`: not empty, not immortal, and on its own or a free endpoint. */
  ghost predicate Acceptable(b: Bindings, k: BindingKey, binding: Binding) {
    && binding.destinations != {} && binding.entry.idleTimeout > 0
    && ((k in b && b[k].entry.translated == binding.entry.translated) || !Taken(b, k.network, binding.entry.translated))
  }

  lemma AcceptableKeepsWellFormed(b: Bindings, k: BindingKey, binding: Binding)
    requires WellFormed(b) && Acceptable(b, k, binding)
    ensures WellFormed(b[k := binding])
  {
    var b' := b[k := binding];
    forall network, address, i, j | Behind(b', network, address, i) && Behind(b', network, address, j)
      ensures i == j
    {
      assert k in b && b[k].entry.translated == binding.entry.translated && k in {i, j} ==>
          Behind(b, network, address, k);
      assert i != k ==> Behind(b, network, address, i);
      assert j != k ==> Behind(b, network, address, j);
    }
  }

  lemma SubMapKeepsInjective(b: Bindings, gone: set<BindingKey>)
    requires Injective(b)
    ensures Injective(b - gone)
  {
    assert forall network, address, k :: Behind(b - gone, network, address, k) ==> Behind(b, network, address, k);
  }

  lemma OneChangedKeepsSound(n: Nat, n': Nat, k: BindingKey)
    requires Sound(n) && OneChanged(n, n', k)
    ensures Sound(n')
  {
    if k in n.bindings {
      RemoveOne(n.bindings, k);
      SubMapKeepsInjective(n.bindings, {k});
      if k in n'.bindings {
        UpdateSize(n.bindings, k, n'.bindings[k]);
        if n'.bindings == n.bindings[k := n'.bindings[k]] && Acceptable(n.bindings, k, n'.bindings[k]) {
          AcceptableKeepsWellFormed(n.bindings, k, n'.bindings[k]);
        }
      }
    }
  }

  lemma InsertSound(n: Nat, key: NatKey, translated: SocketAddr, idleTimeout: nat, now: Time)
    requires Sound(n)
    ensures Sound(SpecInsert(n, key, translated, idleTimeout, now).0)
  {
    var n' := SpecInsert(n, key, translated, idleTimeout, now).0;
    var k := KeyOf(key);
    if k in n.bindings {
      OneChangedKeepsSound(n, n', k);
    } else if k in n'.bindings {
      UpdateSize(n.bindings, k, n'.bindings[k]);
      AcceptableKeepsWellFormed(n.bindings, k, n'.bindings[k]);
    }
  }

  lemma TouchSound(n: Nat, key: NatKey, now: Time, later: Time)
    requires Sound(n)
    ensures Sound(SpecTouch(n, key, now, later).0)
  {
    OneChangedKeepsSound(n, SpecTouch(n, key, now, later).0, KeyOf(key));
  }

  lemma BindSound(n: Nat, k: BindingKey, translated: SocketAddr, now: Time)
    requires Sound(n)
    ensures Sound(SpecBind(n, k, translated, now).0)
  {
    OneChangedKeepsSound(n, SpecBind(n, k, translated, now).0, k);
  }

  lemma RemoveSound(n: Nat, key: NatKey)
    requires Sound(n)
    ensures Sound(SpecRemove(n, key).0)
  {
    OneChangedKeepsSound(n, SpecRemove(n, key).0, KeyOf(key));
  }

  lemma RemoveSourceSound(n: Nat, k: BindingKey)
    requires Sound(n)
    ensures Sound(SpecRemoveSource(n, k).0)
  {
    OneChangedKeepsSound(n, SpecRemoveSource(n, k).0, k);
  }

  lemma SweepSound(n: Nat, now: Time)
    requires Sound(n)
    ensures Sound(SpecSweep(n, now))
  {
    RemoveMany(n.bindings, ExpiredKeys(n.bindings, now));
    SubMapKeepsInjective(n.bindings, ExpiredKeys(n.bindings, now));
  }

  lemma LookupTranslatedSound(n: Nat, network: Network, address: SocketAddr, now: Time, later: Time)
    requires Sound(n)
    ensures Sound(SpecLookupTranslated(n, network, address, now, later).0)
  {
    if Taken(n.bindings, network, address) {
      var k := OwnerOf(n.bindings, network, address);
      OneChangedKeepsSound(n, SpecLookupTranslated(n, network, address, now, later).0, k);
    }
  }

  lemma LookupSourceSound(n: Nat, k: BindingKey, now: Time)
    requires Sound(n)
    ensures Sound(SpecLookupSource(n, k, now).0)
  {
    OneChangedKeepsSound(n, SpecLookupSource(n, k, now).0, k);
  }

  lemma StepSound(n: Nat, op: NatOp)
    requires Sound(n)
    ensures Sound(SpecStep(n, op))
  {
    match op {
      case InsertOp(key, translated, idleTimeout, now) => InsertSound(n, key, translated, idleTimeout, now);
      case TouchOp(key, now, later) => TouchSound(n, key, now, later);
      case BindOp(k, translated, now) => BindSound(n, k, translated, now);
      case RemoveOp(key) => RemoveSound(n, key);
      case RemoveSourceOp(k) => RemoveSourceSound(n, k);
      case SweepOp(now) => SweepSound(n, now);
      case LookupTranslatedOp(network, address, now, later) => LookupTranslatedSound(n, network, address, now, later);
      case LookupSourceOp(k, now) => LookupSourceSound(n, k, now);
    }
  }

  /** Over every run: allocations are conserved, endpoints are never shared, no binding is empty. */
  lemma {:induction false} ConservationOverEveryRun(ops: seq<NatOp>)
    ensures Conserved(SpecRun(ops)) && WellFormed(SpecRun(ops).bindings)
  {
    if ops != [] {
      ConservationOverEveryRun(ops[..|ops| - 1]);
      StepSound(SpecRun(ops[..|ops| - 1]), ops[|ops| - 1]);
    }
  }

  lemma SpecRunStep(ops: seq<NatOp>, op: NatOp)
    ensures SpecRun(ops + [op]) == SpecStep(SpecRun(ops), op)
  {
    assert (ops + [op])[..|ops|] == ops;
  }

  // ------------------------------------------------- how long a mapping stands

  /** The operations that take source `k` off its endpoint: closing, rebinding, and finding it expired. */
  ghost predicate Disturbs(n: Nat, op: NatOp, k: BindingKey)
    requires k in n.bindings
  {
    var entry := n.bindings[k].entry;
    match op
    case InsertOp(_, _, _, _) => false
    case TouchOp(key, now, _) => KeyOf(key) == k && Expired(entry, now)
    case BindOp(b, translated, now) =>
      && b == k
      && (Expired(entry, now) || (translated != entry.translated && !Taken(n.bindings, k.network, translated)))
    case RemoveOp(key) => KeyOf(key) == k && n.bindings[k].destinations <= {key.destination}
    case RemoveSourceOp(b) => b == k
    case SweepOp(now) => Expired(entry, now)
    case LookupTranslatedOp(network, address, now, _) =>
      network == k.network && address == entry.translated && Expired(entry, now)
    case LookupSourceOp(b, now) => b == k && Expired(entry, now)
  }

  /** One operation leaves a source behind its endpoint if and only if it does not disturb it. */
  lemma StandsExactlyUndisturbed(n: Nat, op: NatOp, k: BindingKey)
    requires Sound(n) && k in n.bindings
    ensures Behind(SpecStep(n, op).bindings, k.network, n.bindings[k].entry.translated, k) <==> !Disturbs(n, op, k)
  {
    var address := n.bindings[k].entry.translated;
    assert Behind(n.bindings, k.network, address, k);
    if op.LookupTranslatedOp? && Taken(n.bindings, op.network, op.address) {
      var owner := OwnerOf(n.bindings, op.network, op.address);
      assert owner == k <==> op.network == k.network && op.address == address;
    }
  }

  ghost predicate Undisturbed(ops: seq<NatOp>, more: seq<NatOp>, k: BindingKey) {
    forall i :: 0 <= i < |more| ==>
      k in SpecRun(ops + more[..i]).bindings ==> !Disturbs(SpecRun(ops + more[..i]), more[i], k)
  }

  lemma MappingStandsStep(ops: seq<NatOp>, op: NatOp, k: BindingKey)
    requires k in SpecRun(ops).bindings && !Disturbs(SpecRun(ops), op, k)
    ensures Behind(SpecRun(ops + [op]).bindings, k.network, SpecRun(ops).bindings[k].entry.translated, k)
  {
    ConservationOverEveryRun(ops);
    StandsExactlyUndisturbed(SpecRun(ops), op, k);
    SpecRunStep(ops, op);
  }

  lemma {:induction false} MappingStands(ops: seq<NatOp>, more: seq<NatOp>, k: BindingKey)
    requires k in SpecRun(ops).bindings && Undisturbed(ops, more, k)
    ensures Behind(SpecRun(ops + more).bindings, k.network, SpecRun(ops).bindings[k].entry.translated, k)
  {
    if more == [] {
      assert ops + more == ops;
    } else {
      var front, op := more[..|more| - 1], more[|more| - 1];
      assert forall i :: 0 <= i < |front| ==> front[..i] == more[..i];
      assert more[..|front|] == front && more[|front|] == op;
      MappingStands(ops, front, k);
      MappingStandsStep(ops + front, op, k);
      assert ops + front + [op] == ops + more;
    }
  }

  /**
   * Endpoint-independent mapping and filtering (sections 4.1 and 5 of RFC
   * 4787). After any operations that do not close, rebind or expire the
   * source, and until its idle timeout: an outbound packet to any destination
   * leaves from the same endpoint, and an inbound packet there finds the
   * source.
   */
  lemma MappingAcceptsEveryPeer(ops: seq<NatOp>, more: seq<NatOp>, key: NatKey, probe: Time, later: Time)
    requires KeyOf(key) in SpecRun(ops).bindings && Undisturbed(ops, more, KeyOf(key))
    ensures var n := SpecRun(ops + more); var address := SpecRun(ops).bindings[KeyOf(key)].entry.translated;
            && KeyOf(key) in n.bindings
            && (!Expired(n.bindings[KeyOf(key)].entry, probe) ==>
                  && SpecTouch(n, key, probe, later).1.Some?
                  && SpecTouch(n, key, probe, later).1.value.translated == address
                  && SpecLookupTranslated(n, key.network, address, probe, later).1 == Some(KeyOf(key)))
  {
    MappingStands(ops, more, KeyOf(key));
    ConservationOverEveryRun(ops + more);
  }

  /** Only an insert or a rebind puts a source behind an endpoint. */
  lemma OnlyInsertAndBindMap(n: Nat, op: NatOp, network: Network, address: SocketAddr, k: BindingKey)
    requires Behind(SpecStep(n, op).bindings, network, address, k)
    ensures || Behind(n.bindings, network, address, k)
            || (op.InsertOp? && KeyOf(op.key) == k && op.translated == address)
            || (op.BindOp? && op.binding == k && op.translated == address)
  {
  }

  /** A reverse lookup that finds nothing leaves nothing behind the endpoint. */
  lemma FailedLookupLeavesNothing(n: Nat, network: Network, a: SocketAddr, now: Time, later: Time)
    requires Sound(n) && SpecLookupTranslated(n, network, a, now, later).1.None?
    ensures !Taken(SpecLookupTranslated(n, network, a, now, later).0.bindings, network, a)
  {
    var n' := SpecLookupTranslated(n, network, a, now, later).0;
    if k :| Behind(n'.bindings, network, a, k) {
      assert Behind(n.bindings, network, a, k);
    }
  }
}
