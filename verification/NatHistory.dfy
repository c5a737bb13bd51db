/** What the table holds, told from the operations and their results alone. */
module NatHistory {
  import opened Common
  import opened NatTables
  import opened NatIndexes

  // -------------------------------------------------------- how long a binding lives

  /** When a source was mapped, for how long it may be idle, and when it was last used. */
  datatype Life = Life(created: Time, idleTimeout: nat, lastUse: Time)

  /** The time of an operation that succeeded for source `k`: an insert, a touch, a bind or a reverse hit. */
  ghost function UseOf(n: Nat, op: NatOp, k: BindingKey): Option<Time> {
    match op
    case InsertOp(key, translated, idleTimeout, now) =>
      if KeyOf(key) == k && SpecInsert(n, key, translated, idleTimeout, now).1.Ok? then Some(now) else None
    case TouchOp(key, now, later) =>
      if KeyOf(key) == k && SpecTouch(n, key, now, later).1.Some? then Some(later) else None
    case BindOp(b, translated, now) =>
      if b == k && SpecBind(n, b, translated, now).1.Ok? then Some(now) else None
    case LookupTranslatedOp(network, address, now, later) =>
      if SpecLookupTranslated(n, network, address, now, later).1 == Some(k) then Some(later) else None
    case _ => None
  }

  /** A successful insert of an unmapped source begins a life; other uses renew it. */
  ghost function LifeOf(ops: seq<NatOp>, k: BindingKey): Option<Life> {
    if ops == [] then None
    else
      var past, op := ops[..|ops| - 1], ops[|ops| - 1];
      var n := SpecRun(past);
      var use := UseOf(n, op, k);
      if use.None? then LifeOf(past, k)
      else if op.InsertOp? && k !in n.bindings then Some(Life(use.value, op.idleTimeout, use.value))
      else if LifeOf(past, k).Some? then Some(LifeOf(past, k).value.(lastUse := use.value))
      else None
  }

  function Recorded(entry: NatEntry): Life {
    Life(entry.createdAt, entry.idleTimeout, entry.lastSeen)
  }

  /** One operation: a use renews the binding, a first insert begins it, anything else leaves its times alone. */
  lemma TimesStep(n: Nat, op: NatOp, k: BindingKey)
    requires Sound(n) && k in SpecStep(n, op).bindings
    ensures var entry := SpecStep(n, op).bindings[k].entry; var use := UseOf(n, op, k);
      && (k !in n.bindings ==>
            op.InsertOp? && use.Some? && Recorded(entry) == Life(use.value, op.idleTimeout, use.value))
      && (k in n.bindings ==>
            Recorded(entry) ==
              Recorded(n.bindings[k].entry).(lastUse := if use.Some? then use.value else n.bindings[k].entry.lastSeen))
  {
  }

  lemma {:induction false} RecordedIsLife(ops: seq<NatOp>, k: BindingKey)
    requires k in SpecRun(ops).bindings
    ensures LifeOf(ops, k) == Some(Recorded(SpecRun(ops).bindings[k].entry))
  {
    if ops != [] {
      var past, op := ops[..|ops| - 1], ops[|ops| - 1];
      ConservationOverEveryRun(past);
      TimesStep(SpecRun(past), op, k);
      if k in SpecRun(past).bindings {
        RecordedIsLife(past, k);
      }
    }
  }

  /**
   * Over every run, a standing binding counts as expired at `probe` if and
   * only if its idle timeout has passed since it was last inserted, touched,
   * bound or hit.
   */
  lemma ExpiredExactlyWhenIdle(ops: seq<NatOp>, k: BindingKey, probe: Time)
    requires k in SpecRun(ops).bindings
    ensures LifeOf(ops, k).Some?
    ensures var life := LifeOf(ops, k).value;
      Expired(SpecRun(ops).bindings[k].entry, probe) <==> probe >= life.lastUse + life.idleTimeout
  {
    RecordedIsLife(ops, k);
    ConservationOverEveryRun(ops);
  }

  /** Reading a source, dropping one of its flows and sweeping are no uses: they do not renew it. */
  lemma ReadingDoesNotRenew(ops: seq<NatOp>, op: NatOp, k: BindingKey)
    requires op.LookupSourceOp? || op.RemoveOp? || op.RemoveSourceOp? || op.SweepOp?
    ensures LifeOf(ops + [op], k) == LifeOf(ops, k)
  {
    assert (ops + [op])[..|ops|] == ops;
  }

  /** A use renews it: the timeout starts again, unchanged, from the time of the use. */
  lemma UseRenews(ops: seq<NatOp>, op: NatOp, k: BindingKey, probe: Time)
    requires k in SpecRun(ops).bindings && UseOf(SpecRun(ops), op, k).Some? && k in SpecRun(ops + [op]).bindings
    ensures Expired(SpecRun(ops + [op]).bindings[k].entry, probe) <==>
              probe >= UseOf(SpecRun(ops), op, k).value + SpecRun(ops).bindings[k].entry.idleTimeout
  {
    SpecRunStep(ops, op);
    ConservationOverEveryRun(ops);
    TimesStep(SpecRun(ops), op, k);
    ConservationOverEveryRun(ops + [op]);
  }

  // --------------------------------------------------------------- which flows

  /** The flow an operation adds: that of a successful insert or touch. */
  ghost predicate Adds(n: Nat, op: NatOp, flow: NatKey) {
    || (op.InsertOp? && op.key == flow && SpecInsert(n, flow, op.translated, op.idleTimeout, op.now).1.Ok?)
    || (op.TouchOp? && op.key == flow && SpecTouch(n, flow, op.now, op.later).1.Some?)
  }

  /** The flows of a source that stands: those before, with the one added and without the one removed. */
  lemma FlowsStep(n: Nat, op: NatOp, flow: NatKey)
    requires Sound(n)
    ensures flow in Flows(SpecStep(n, op).bindings) <==>
              && KeyOf(flow) in SpecStep(n, op).bindings
              && (Adds(n, op, flow) || (flow in Flows(n.bindings) && op != RemoveOp(flow)))
  {
    FlowIsListed(n.bindings, flow);
    FlowIsListed(SpecStep(n, op).bindings, flow);
  }

  lemma FlowIsListed(b: Bindings, flow: NatKey)
    ensures flow in Flows(b) <==> KeyOf(flow) in b && flow.destination in b[KeyOf(flow)].destinations
  {
    assert flow == NatKey(KeyOf(flow).network, KeyOf(flow).source, flow.destination);
  }

  // ------------------------------------------------------------------ counters

  function Add(a: Metrics, b: Metrics): Metrics {
    Metrics(a.allocations + b.allocations, a.reuses + b.reuses, a.touchHits + b.touchHits,
            a.touchMisses + b.touchMisses, a.reverseLookups + b.reverseLookups, a.reverseHits + b.reverseHits,
            a.translatedRebinds + b.translatedRebinds, a.expiredBindings + b.expiredBindings,
            a.explicitCloses + b.explicitCloses)
  }

  const NOTHING := Metrics(0, 0, 0, 0, 0, 0, 0, 0, 0)

  function One(b: bool): nat {
    if b then 1 else 0
  }

  /** What an operation counts, from its result and from how many bindings it took away. */
  ghost function Tally(n: Nat, op: NatOp): Metrics {
    var lost := if |SpecStep(n, op).bindings| <= |n.bindings| then |n.bindings| - |SpecStep(n, op).bindings| else 0;
    match op
    case InsertOp(key, translated, idleTimeout, now) =>
      var ok := SpecInsert(n, key, translated, idleTimeout, now).1.Ok?;
      NOTHING.(allocations := One(ok && KeyOf(key) !in n.bindings), reuses := One(ok && KeyOf(key) in n.bindings))
    case TouchOp(key, now, later) =>
      var hit := SpecTouch(n, key, now, later).1.Some?;
      NOTHING.(touchHits := One(hit), touchMisses := One(!hit), expiredBindings := lost)
    case BindOp(k, translated, now) =>
      var ok := SpecBind(n, k, translated, now).1.Ok?;
      NOTHING.(translatedRebinds := One(ok && k in n.bindings && n.bindings[k].entry.translated != translated),
               expiredBindings := lost)
    case RemoveOp(_) => NOTHING.(explicitCloses := lost)
    case RemoveSourceOp(_) => NOTHING.(explicitCloses := lost)
    case SweepOp(_) => NOTHING.(expiredBindings := lost)
    case LookupTranslatedOp(network, address, now, later) =>
      var hit := SpecLookupTranslated(n, network, address, now, later).1.Some?;
      NOTHING.(reverseLookups := 1, reverseHits := One(hit), expiredBindings := lost)
    case LookupSourceOp(_, _) => NOTHING.(expiredBindings := lost)
  }

  /** The size of the table after one binding was removed or updated, or nothing happened. */
  lemma SizesAt(b: Bindings, k: BindingKey, b': Bindings)
    requires k in b
    ensures b' == b - {k} ==> |b'| == |b| - 1
    ensures k in b' && b' == b[k := b'[k]] ==> |b'| == |b|
  {
    RemoveOne(b, k);
    if k in b' {
      UpdateSize(b, k, b'[k]);
    }
  }

  lemma TallyOfTouch(n: Nat, op: NatOp)
    requires op.TouchOp?
    ensures SpecStep(n, op).metrics == Add(n.metrics, Tally(n, op))
  {
    if KeyOf(op.key) in n.bindings {
      SizesAt(n.bindings, KeyOf(op.key), SpecStep(n, op).bindings);
    }
  }

  lemma TallyOfRemove(n: Nat, op: NatOp)
    requires op.RemoveOp?
    ensures SpecStep(n, op).metrics == Add(n.metrics, Tally(n, op))
  {
    if KeyOf(op.key) in n.bindings {
      SizesAt(n.bindings, KeyOf(op.key), SpecStep(n, op).bindings);
    }
  }

  lemma TallyOfBind(n: Nat, op: NatOp)
    requires op.BindOp?
    ensures SpecStep(n, op).metrics == Add(n.metrics, Tally(n, op))
  {
    if op.binding in n.bindings {
      SizesAt(n.bindings, op.binding, SpecStep(n, op).bindings);
    }
  }

  lemma TallyOfSource(n: Nat, op: NatOp)
    requires op.RemoveSourceOp? || op.LookupSourceOp?
    ensures SpecStep(n, op).metrics == Add(n.metrics, Tally(n, op))
  {
    if op.binding in n.bindings {
      SizesAt(n.bindings, op.binding, SpecStep(n, op).bindings);
    }
  }

  lemma TallyOfLookup(n: Nat, op: NatOp)
    requires op.LookupTranslatedOp?
    ensures SpecStep(n, op).metrics == Add(n.metrics, Tally(n, op))
  {
    if Taken(n.bindings, op.network, op.address) {
      SizesAt(n.bindings, OwnerOf(n.bindings, op.network, op.address), SpecStep(n, op).bindings);
    }
  }

  lemma TallyOfSweep(n: Nat, now: Time)
    ensures SpecStep(n, SweepOp(now)).metrics == Add(n.metrics, Tally(n, SweepOp(now)))
  {
    RemoveMany(n.bindings, ExpiredKeys(n.bindings, now));
  }

  lemma TallyStep(n: Nat, op: NatOp)
    ensures SpecStep(n, op).metrics == Add(n.metrics, Tally(n, op))
  {
    match op {
      case InsertOp(_, _, _, _) =>
      case SweepOp(now) => TallyOfSweep(n, now);
      case LookupTranslatedOp(_, _, _, _) => TallyOfLookup(n, op);
      case TouchOp(_, _, _) => TallyOfTouch(n, op);
      case RemoveOp(_) => TallyOfRemove(n, op);
      case BindOp(_, _, _) => TallyOfBind(n, op);
      case _ => TallyOfSource(n, op);
    }
  }

  ghost function Total(ops: seq<NatOp>): Metrics {
    if ops == [] then NOTHING
    else Add(Total(ops[..|ops| - 1]), Tally(SpecRun(ops[..|ops| - 1]), ops[|ops| - 1]))
  }

  /** Over every run each of the nine counters is the number of its events. */
  lemma {:induction false} CountersCountEvents(ops: seq<NatOp>)
    ensures SpecRun(ops).metrics == Total(ops)
  {
    if ops != [] {
      CountersCountEvents(ops[..|ops| - 1]);
      TallyStep(SpecRun(ops[..|ops| - 1]), ops[|ops| - 1]);
    }
  }

  // ------------------------------------------------------------------- results

  /** A source is live when it has a binding that has not been idle for its timeout. */
  predicate Live(n: Nat, k: BindingKey, now: Time) {
    k in n.bindings && !Expired(n.bindings[k].entry, now)
  }

  /** An insert succeeds for a source on its own endpoint, live or not, and for a new source on a free one. */
  lemma InsertSucceedsExactly(n: Nat, key: NatKey, endpoint: SocketAddr, idleTimeout: nat, now: Time)
    requires Sound(n)
    ensures var (n', r) := SpecInsert(n, key, endpoint, idleTimeout, now);
      && (r.Ok? <==>
            && idleTimeout > 0
            && forall k :: k in n.bindings && k.network == key.network ==>
                 (k == KeyOf(key) <==> n.bindings[k].entry.translated == endpoint))
      && (r.Err? ==> r.error == InvalidInput && n' == n)
      && (r.Ok? ==> Live(n', KeyOf(key), now) && Behind(n'.bindings, key.network, endpoint, KeyOf(key)))
  {
    forall k | k in n.bindings && k.network == key.network && n.bindings[k].entry.translated == endpoint
      ensures Behind(n.bindings, key.network, endpoint, k)
    {
    }
    if KeyOf(key) in n.bindings && n.bindings[KeyOf(key)].entry.translated == endpoint {
      assert Behind(n.bindings, key.network, endpoint, KeyOf(key));
    }
  }

  /** A touch answers exactly for a live source, with the entry as it now stands. */
  lemma TouchAnswersExactly(n: Nat, key: NatKey, now: Time, later: Time)
    ensures var (n', r) := SpecTouch(n, key, now, later);
      && (r.Some? <==> Live(n, KeyOf(key), now))
      && (r.Some? ==> KeyOf(key) in n'.bindings && n'.bindings[KeyOf(key)].entry == r.value)
      && (r.None? ==> KeyOf(key) !in n'.bindings)
  {
  }

  /** A bind moves a live source to a free endpoint, keeps it on its own, and says why it cannot do either. */
  lemma BindSucceedsExactly(n: Nat, k: BindingKey, endpoint: SocketAddr, now: Time)
    requires Sound(n)
    ensures var (n', r) := SpecBind(n, k, endpoint, now);
      && (r.Ok? <==> Live(n, k, now) && forall other :: Behind(n.bindings, k.network, endpoint, other) ==> other == k)
      && (r == Err(NotFound) <==> k !in n.bindings)
      && (r == Err(Closed) <==> k in n.bindings && Expired(n.bindings[k].entry, now))
      && (r.Ok? ==> Behind(n'.bindings, k.network, endpoint, k) && n'.bindings[k].entry == r.value)
      && (r == Err(InvalidInput) ==> n' == n)
  {
    if k in n.bindings && n.bindings[k].entry.translated == endpoint {
      assert Behind(n.bindings, k.network, endpoint, k);
    }
  }

  /** A reverse lookup answers exactly for the live source behind the endpoint. */
  lemma ReverseLookupAnswersExactly(n: Nat, network: Network, address: SocketAddr, now: Time, later: Time,
                                    k: BindingKey)
    requires Sound(n)
    ensures SpecLookupTranslated(n, network, address, now, later).1 == Some(k) <==>
              Behind(n.bindings, network, address, k) && Live(n, k, now)
  {
  }

  lemma LookupSourceAnswersExactly(n: Nat, k: BindingKey, now: Time)
    ensures var (n', r) := SpecLookupSource(n, k, now);
      && (r.Some? <==> Live(n, k, now))
      && (r.Some? ==> n' == n && r.value == n.bindings[k].entry)
      && (r.None? ==> k !in n'.bindings)
  {
  }

  /** Removing a flow answers with the source's entry; removing a source with the number of its flows. */
  lemma RemovalAnswersExactly(n: Nat, key: NatKey)
    ensures SpecRemove(n, key).1 == if KeyOf(key) in n.bindings then Some(n.bindings[KeyOf(key)].entry) else None
    ensures SpecRemoveSource(n, KeyOf(key)).1 == |Flows(Restrict(n.bindings, {KeyOf(key)}))|
    ensures KeyOf(key) !in SpecRemoveSource(n, KeyOf(key)).0.bindings
  {
    var k := KeyOf(key);
    var one := Restrict(n.bindings, {k});
    if k in n.bindings {
      FlowsOfSize(k, n.bindings[k].destinations);
      assert Flows(one) == FlowsOf(k, n.bindings[k].destinations);
    } else {
      assert Flows(one) == {};
    }
  }
}
