/** The bounded map behind the DNS caches: the front is the most recently used end. */
module LruMaps {
  import opened Common

  datatype Slot<K, V> = Slot(key: K, value: V)

  predicate Has<K(==, !new), V(!new)>(items: seq<Slot<K, V>>, key: K) {
    exists i :: 0 <= i < |items| && items[i].key == key
  }

  ghost predicate Distinct<K, V>(items: seq<Slot<K, V>>) {
    forall i, j :: 0 <= i < j < |items| ==> items[i].key != items[j].key
  }

  function Lookup<K(==, !new), V(!new)>(items: seq<Slot<K, V>>, key: K): (r: Option<V>)
    ensures r.Some? <==> Has(items, key)
    ensures r.Some? ==> Slot(key, r.value) in items
  {
    if items == [] then None
    else if items[0].key == key then Some(items[0].value)
    else
      var r := Lookup(items[1..], key);
      assert forall i :: 0 <= i < |items| - 1 ==> items[1..][i] == items[i + 1];
      r
  }

  function Without<K(==, !new), V(!new)>(items: seq<Slot<K, V>>, key: K): (r: seq<Slot<K, V>>)
    ensures !Has(r, key)
    ensures forall s :: s in r <==> s in items && s.key != key
    ensures |r| <= |items|
    ensures Has(items, key) ==> |r| < |items|
    ensures !Has(items, key) ==> r == items
  {
    if items == [] then []
    else
      assert forall i :: 0 <= i < |items| - 1 ==> items[1..][i] == items[i + 1];
      if items[0].key == key then
        var r := Without(items[1..], key);
        r
      else [items[0]] + Without(items[1..], key)
  }

  /** Move a present key to the front. */
  function Touch<K(==, !new), V(!new)>(items: seq<Slot<K, V>>, key: K): seq<Slot<K, V>> {
    match Lookup(items, key)
    case Some(value) => [Slot(key, value)] + Without(items, key)
    case None => items
  }

  function Prefix<T>(s: seq<T>, n: nat): seq<T> {
    if |s| <= n then s else s[..n]
  }

  function Put<K(==, !new), V(!new)>(items: seq<Slot<K, V>>, capacity: nat, key: K, value: V): seq<Slot<K, V>> {
    Prefix([Slot(key, value)] + Without(items, key), capacity)
  }

  /** Drop the expired ones among the first `budget` entries. */
  function Sweep<K(==, !new), V(!new)>(items: seq<Slot<K, V>>, budget: nat, expired: V -> bool): (r: seq<Slot<K, V>>)
    ensures |r| <= |items|
    ensures forall s :: s in r ==> s in items
  {
    if budget == 0 || items == [] then items
    else
      var rest := Sweep(items[1..], budget - 1, expired);
      if expired(items[0].value) then rest else [items[0]] + rest
  }

  // -------------------------------------------------------------- recency

  /** Position of the last touch of `key` in the touch log, or -1. */
  function LastTouch<K(==)>(log: seq<K>, key: K): (i: int)
    ensures -1 <= i < |log|
    ensures i >= 0 ==> log[i] == key
    ensures forall j :: i < j < |log| ==> log[j] != key
  {
    if log == [] then -1
    else if log[|log| - 1] == key then |log| - 1
    else LastTouch(log[..|log| - 1], key)
  }

  /** The other keys touched since the last touch of `key`. */
  ghost function TouchedSince<K(!new)>(log: seq<K>, key: K): set<K> {
    set i | LastTouch(log, key) < i < |log| :: log[i]
  }

  /** Entries lie in the order of their last touch, newest first. */
  ghost predicate ByRecency<K(!new), V(!new)>(items: seq<Slot<K, V>>, log: seq<K>) {
    && (forall i :: 0 <= i < |items| ==> LastTouch(log, items[i].key) >= 0)
    && (forall i, j :: 0 <= i < j < |items| ==> LastTouch(log, items[i].key) > LastTouch(log, items[j].key))
  }

  lemma RecencyIsDistinct<K(!new), V(!new)>(items: seq<Slot<K, V>>, log: seq<K>)
    requires ByRecency(items, log)
    ensures Distinct(items)
  {
    forall i, j | 0 <= i < j < |items|
      ensures items[i].key != items[j].key
    {
      assert LastTouch(log, items[i].key) > LastTouch(log, items[j].key);
    }
  }

  /** A sub-list that keeps the order keeps recency. */
  ghost predicate Embeds<K, V>(r: seq<Slot<K, V>>, items: seq<Slot<K, V>>, at: seq<nat>) {
    && |at| == |r|
    && (forall i :: 0 <= i < |r| ==> at[i] < |items| && items[at[i]] == r[i])
    && (forall i, j :: 0 <= i < j < |r| ==> at[i] < at[j])
  }

  lemma SubListKeepsRecency<K(!new), V(!new)>(r: seq<Slot<K, V>>, items: seq<Slot<K, V>>, at: seq<nat>, log: seq<K>)
    requires ByRecency(items, log) && Embeds(r, items, at)
    ensures ByRecency(r, log)
  {
    forall i, j | 0 <= i < j < |r|
      ensures LastTouch(log, r[i].key) > LastTouch(log, r[j].key)
    {
      assert LastTouch(log, items[at[i]].key) > LastTouch(log, items[at[j]].key);
    }
  }

  lemma {:induction false} WithoutKeepsRecency<K(!new), V(!new)>(items: seq<Slot<K, V>>, key: K, log: seq<K>)
    requires ByRecency(items, log)
    ensures ByRecency(Without(items, key), log)
  {
    if items != [] {
      assert ByRecency(items[1..], log) by {
        SubListKeepsRecency(items[1..], items, seq(|items| - 1, i requires 0 <= i => i + 1), log);
      }
      WithoutKeepsRecency(items[1..], key, log);
      var rest := Without(items[1..], key);
      if items[0].key != key {
        ConsKeepsRecency(items, rest, log);
      }
    }
  }

  lemma ConsKeepsRecency<K(!new), V(!new)>(items: seq<Slot<K, V>>, rest: seq<Slot<K, V>>, log: seq<K>)
    requires items != [] && ByRecency(items, log) && ByRecency(rest, log)
    requires forall s :: s in rest ==> s in items[1..]
    ensures ByRecency([items[0]] + rest, log)
  {
    var r := [items[0]] + rest;
    forall j | 0 < j < |r|
      ensures LastTouch(log, r[0].key) > LastTouch(log, r[j].key)
    {
      assert r[j] in items[1..];
      var k :| 0 <= k < |items[1..]| && items[1..][k] == r[j];
      assert LastTouch(log, items[0].key) > LastTouch(log, items[k + 1].key);
    }
  }

  lemma {:induction false} SweepKeepsRecency<K(!new), V(!new)>(items: seq<Slot<K, V>>, budget: nat,
                                                               expired: V -> bool, log: seq<K>)
    requires ByRecency(items, log)
    ensures ByRecency(Sweep(items, budget, expired), log)
    decreases budget
  {
    if budget != 0 && items != [] {
      SubListKeepsRecency(items[1..], items, seq(|items| - 1, i requires 0 <= i => i + 1), log);
      SweepKeepsRecency(items[1..], budget - 1, expired, log);
      ConsKeepsRecency(items, Sweep(items[1..], budget - 1, expired), log);
    }
  }

  lemma LastTouchExtends<K(!new)>(log: seq<K>, key: K, other: K)
    ensures LastTouch(log + [key], other) == if other == key then |log| else LastTouch(log, other)
  {
    assert (log + [key])[..|log|] == log;
  }

  /** An entry touched last goes before all others. */
  lemma LatestGoesFirst<K(!new), V(!new)>(slot: Slot<K, V>, rest: seq<Slot<K, V>>, log: seq<K>)
    requires ByRecency(rest, log) && LastTouch(log, slot.key) >= 0
    requires forall i :: 0 <= i < |rest| ==> LastTouch(log, slot.key) > LastTouch(log, rest[i].key)
    ensures ByRecency([slot] + rest, log)
  {
    var r := [slot] + rest;
    assert forall i :: 0 < i < |r| ==> r[i] == rest[i - 1];
  }

  /** A touch moves its key to the front and leaves the rest in order. */
  lemma FrontKeepsRecency<K(!new), V(!new)>(items: seq<Slot<K, V>>, key: K, value: V, log: seq<K>)
    requires ByRecency(items, log)
    ensures ByRecency([Slot(key, value)] + Without(items, key), log + [key])
  {
    WithoutKeepsRecency(items, key, log);
    LastTouchExtends(log, key, key);
    OthersKeepRecency(Without(items, key), key, log);
    LatestGoesFirst(Slot(key, value), Without(items, key), log + [key]);
  }

  lemma OthersKeepRecency<K(!new), V(!new)>(rest: seq<Slot<K, V>>, key: K, log: seq<K>)
    requires ByRecency(rest, log) && !Has(rest, key)
    ensures ByRecency(rest, log + [key])
    ensures forall i :: 0 <= i < |rest| ==> LastTouch(log + [key], rest[i].key) < |log|
  {
    forall i | 0 <= i < |rest|
      ensures LastTouch(log + [key], rest[i].key) == LastTouch(log, rest[i].key)
    {
      LastTouchExtends(log, key, rest[i].key);
    }
  }

  lemma PutKeepsRecency<K(!new), V(!new)>(items: seq<Slot<K, V>>, capacity: nat, key: K, value: V, log: seq<K>)
    requires ByRecency(items, log)
    ensures ByRecency(Put(items, capacity, key, value), log + [key])
  {
    FrontKeepsRecency(items, key, value, log);
    var full := [Slot(key, value)] + Without(items, key);
    assert forall i :: 0 <= i < |Put(items, capacity, key, value)| ==> Put(items, capacity, key, value)[i] == full[i];
  }

  lemma {:induction false} KeysCount<K(!new), V(!new)>(items: seq<Slot<K, V>>)
    requires Distinct(items)
    ensures |set s | s in items :: s.key| == |items|
  {
    var keys := set s | s in items :: s.key;
    if items == [] {
      assert keys == {};
    } else {
      var last := |items| - 1;
      var rest := set s | s in items[..last] :: s.key;
      KeysCount(items[..last]);
      assert items == items[..last] + [items[last]];
      assert keys == rest + {items[last].key};
      assert items[last].key !in rest;
    }
  }

  /** Every key ahead of position `n` was touched after the key at `n`. */
  lemma AheadWasTouched<K(!new), V(!new)>(items: seq<Slot<K, V>>, n: nat, log: seq<K>)
    requires ByRecency(items, log) && n < |items|
    ensures forall s :: s in items[..n] ==> s.key in TouchedSince(log, items[n].key) - {items[n].key}
  {
    forall s | s in items[..n]
      ensures s.key in TouchedSince(log, items[n].key) - {items[n].key}
    {
      var i :| 0 <= i < n && items[..n][i] == s;
      assert LastTouch(log, items[i].key) > LastTouch(log, items[n].key);
      assert log[LastTouch(log, s.key)] == s.key;
    }
  }

  /**
   * The least-recently-used guarantee: whatever an insertion evicts has seen
   * at least `capacity` other keys touched since its own last touch.
   */
  lemma EvictedIsLeastRecent<K(!new), V(!new)>(items: seq<Slot<K, V>>, capacity: nat, key: K, value: V,
                                               log: seq<K>, victim: K)
    requires ByRecency(items, log) && |items| <= capacity
    requires Has(items, victim) && !Has(Put(items, capacity, key, value), victim)
    ensures victim != key
    ensures |TouchedSince(log + [key], victim) - {victim}| >= capacity
  {
    var full := [Slot(key, value)] + Without(items, key);
    FrontKeepsRecency(items, key, value, log);
    VictimIsLast(items, capacity, key, value, victim);
    AheadWasTouched(full, capacity, log + [key]);
    RecencyIsDistinct(full, log + [key]);
    KeysCount(full[..capacity]);
    SubsetSize(set s | s in full[..capacity] :: s.key, TouchedSince(log + [key], victim) - {victim});
  }

  /** A short list cut to `capacity` loses only its last element, and only if it is one too long. */
  lemma CutLosesLast<T>(s: seq<T>, capacity: nat, j: nat)
    requires |s| <= capacity + 1 && j < |s|
    ensures s[j] in Prefix(s, capacity) || (|s| == capacity + 1 && j == capacity)
  {
    if j < |Prefix(s, capacity)| {
      assert Prefix(s, capacity)[j] == s[j];
    }
  }

  lemma VictimIsLast<K(!new), V(!new)>(items: seq<Slot<K, V>>, capacity: nat, key: K, value: V, victim: K)
    requires |items| <= capacity
    requires Has(items, victim) && !Has(Put(items, capacity, key, value), victim)
    ensures var full := [Slot(key, value)] + Without(items, key);
      victim != key && |full| == capacity + 1 && full[capacity].key == victim
  {
    var full := [Slot(key, value)] + Without(items, key);
    HasMeansIn(Put(items, capacity, key, value), victim);
    var j := VictimPosition(items, capacity, key, value, victim);
    CutLosesLast(full, capacity, j);
  }

  lemma VictimPosition<K(!new), V(!new)>(items: seq<Slot<K, V>>, capacity: nat, key: K, value: V, victim: K)
    returns (j: nat)
    requires |items| <= capacity
    requires Has(items, victim) && !Has(Put(items, capacity, key, value), victim)
    ensures var full := [Slot(key, value)] + Without(items, key);
      victim != key && j < |full| && full[j].key == victim
  {
    HasMeansIn(items, victim);
    var slot :| slot in items && slot.key == victim;
    FirstIsPut(items, capacity, key, value);
    var i := IndexOf(Without(items, key), slot);
    j := i + 1;
  }

  lemma FirstIsPut<K(!new), V(!new)>(items: seq<Slot<K, V>>, capacity: nat, key: K, value: V)
    requires capacity > 0
    ensures Has(Put(items, capacity, key, value), key)
  {
    assert Put(items, capacity, key, value)[0].key == key;
  }

  lemma IndexOf<T>(s: seq<T>, x: T) returns (j: nat)
    requires x in s
    ensures j < |s| && s[j] == x
  {
    j :| 0 <= j < |s| && s[j] == x;
  }

  lemma HasMeansIn<K(!new), V(!new)>(items: seq<Slot<K, V>>, key: K)
    ensures Has(items, key) <==> exists s :: s in items && s.key == key
  {
    if Has(items, key) {
      var i :| 0 <= i < |items| && items[i].key == key;
      assert items[i] in items;
    }
  }

  /** Using or removing one key loses no other. */
  lemma OthersStay<K(!new), V(!new)>(items: seq<Slot<K, V>>, used: K, key: K)
    requires Has(items, key) && used != key
    ensures Has(Without(items, used), key) && Has(Touch(items, used), key)
  {
    HasMeansIn(items, key);
    HasMeansIn(Without(items, used), key);
    HasMeansIn(Touch(items, used), key);
    var s :| s in items && s.key == key;
    assert s in Without(items, used) && s in Touch(items, used);
  }

  lemma TouchedIsFirst<K(!new), V(!new)>(items: seq<Slot<K, V>>, key: K)
    requires Has(items, key)
    ensures Has(Touch(items, key), key)
  {
    assert Touch(items, key)[0].key == key;
  }

  /** A sweep keeps exactly the entries that have not expired or lie beyond the budget. */
  lemma {:induction false} SweepIsExact<K(!new), V(!new)>(items: seq<Slot<K, V>>, budget: nat, expired: V -> bool,
                                                          j: nat)
    requires Distinct(items) && j < |items|
    ensures items[j] in Sweep(items, budget, expired) <==> !(j < budget && expired(items[j].value))
  {
    if budget > 0 {
      assert forall i :: 0 <= i < |items| - 1 ==> items[1..][i] == items[i + 1];
      if j > 0 {
        SweepIsExact(items[1..], budget - 1, expired, j - 1);
      } else {
        assert items[0] !in items[1..];
      }
    }
  }

  /** What a sweep takes out had expired. */
  lemma {:induction false} SweptHadExpired<K(!new), V(!new)>(items: seq<Slot<K, V>>, budget: nat,
                                                             expired: V -> bool, slot: Slot<K, V>)
    requires slot in items && slot !in Sweep(items, budget, expired)
    ensures expired(slot.value)
  {
    if budget > 0 && slot != items[0] {
      SweptHadExpired(items[1..], budget - 1, expired, slot);
    }
  }

  lemma SubsetSize<T>(a: set<T>, b: set<T>)
    requires a <= b
    ensures |a| <= |b|
  {
    assert b == a + (b - a);
  }

  // ---------------------------------------------------------------- class

  class LruMap<K(!new, ==), V(!new)> {
    const capacity: nat
    var items: seq<Slot<K, V>>

    ghost predicate Valid()
      reads this
    {
      Distinct(items) && |items| <= capacity
    }

    constructor (capacity: nat)
      ensures Valid() && fresh(this) && items == [] && this.capacity == capacity
    {
      this.capacity := capacity;
      items := [];
    }

    method GetCloned(key: K) returns (r: Option<V>)
      requires Valid()
      modifies this
      ensures Valid() && items == Touch(old(items), key)
      ensures r == Lookup(old(items), key)
    {
      r := Lookup(items, key);
      if r.Some? {
        FrontIsDistinct(items, key, r.value);
        items := [Slot(key, r.value)] + Without(items, key);
      }
    }

    method Insert(key: K, value: V)
      requires Valid()
      modifies this
      ensures Valid() && items == Put(old(items), capacity, key, value)
    {
      FrontIsDistinct(items, key, value);
      ghost var full := [Slot(key, value)] + Without(items, key);
      items := [Slot(key, value)] + Without(items, key);
      while |items| > capacity
        invariant Distinct(items)
        invariant items <= full
        invariant |items| >= capacity || items == full
      {
        items := items[..|items| - 1];
      }
    }

    method Remove(key: K) returns (r: Option<V>)
      requires Valid()
      modifies this
      ensures Valid() && items == Without(old(items), key)
      ensures r == Lookup(old(items), key)
    {
      WithoutIsDistinct(items, key);
      r := Lookup(items, key);
      items := Without(items, key);
    }

    /** The expired keys among the first `budget`. */
    method ExpiredAhead(budget: nat, expired: V -> bool) returns (keys: seq<K>)
      requires Valid()
      ensures forall j :: 0 <= j < |items| ==> (items[j].key in keys <==> j < budget && expired(items[j].value))
    {
      keys := [];
      var i := 0;
      while i < |items| && i < budget
        invariant i <= |items| && i <= budget
        invariant forall j :: 0 <= j < |items| ==> (items[j].key in keys <==> j < i && expired(items[j].value))
      {
        if expired(items[i].value) {
          keys := keys + [items[i].key];
        }
        i := i + 1;
      }
    }

    /** Collect the expired keys among the first `budget`, then remove them one by one. */
    method RemoveExpired(budget: nat, expired: V -> bool)
      requires Valid()
      modifies this
      ensures Valid() && items == Sweep(old(items), budget, expired)
    {
      var keys := ExpiredAhead(budget, expired);
      FilterIsSweep(items, keys, budget, expired);
      FilterNone(items);
      for k := 0 to |keys|
        invariant Valid()
        invariant items == FilterOut(old(items), keys[..k])
      {
        assert keys[..k + 1] == keys[..k] + [keys[k]];
        WithoutFilter(old(items), keys[..k], keys[k]);
        var _ := Remove(keys[k]);
      }
      assert keys[..|keys|] == keys;
    }
  }

  lemma {:induction false} WithoutIsDistinct<K(!new), V(!new)>(items: seq<Slot<K, V>>, key: K)
    requires Distinct(items)
    ensures Distinct(Without(items, key))
  {
    if items != [] {
      WithoutIsDistinct(items[1..], key);
      var rest := Without(items[1..], key);
      forall j | 0 <= j < |rest|
        ensures rest[j].key != items[0].key
      {
        assert rest[j] in items[1..];
      }
    }
  }

  lemma FrontIsDistinct<K(!new), V(!new)>(items: seq<Slot<K, V>>, key: K, value: V)
    requires Distinct(items)
    ensures Distinct([Slot(key, value)] + Without(items, key))
    ensures Has(items, key) ==> |Without(items, key)| < |items|
  {
    WithoutIsDistinct(items, key);
    PrependIsDistinct(Slot(key, value), Without(items, key));
  }

  lemma PrependIsDistinct<K(!new), V(!new)>(slot: Slot<K, V>, rest: seq<Slot<K, V>>)
    requires Distinct(rest) && !Has(rest, slot.key)
    ensures Distinct([slot] + rest)
  {
    assert forall j :: 0 <= j < |rest| ==> rest[j] in rest;
  }

  function FilterOut<K(==, !new), V(!new)>(items: seq<Slot<K, V>>, keys: seq<K>): (r: seq<Slot<K, V>>)
    ensures forall s :: s in r ==> s in items
  {
    if items == [] then []
    else if items[0].key in keys then FilterOut(items[1..], keys)
    else [items[0]] + FilterOut(items[1..], keys)
  }

  lemma FilterNone<K(!new), V(!new)>(items: seq<Slot<K, V>>)
    ensures FilterOut(items, []) == items
  {
  }

  lemma {:induction false} WithoutFilter<K(!new), V(!new)>(items: seq<Slot<K, V>>, keys: seq<K>, key: K)
    ensures Without(FilterOut(items, keys), key) == FilterOut(items, keys + [key])
  {
    if items != [] {
      WithoutFilter(items[1..], keys, key);
      var rest := FilterOut(items[1..], keys);
      if items[0].key !in keys {
        assert ([items[0]] + rest)[1..] == rest;
      }
    }
  }

  lemma {:induction false} FilterIsSweep<K(!new), V(!new)>(items: seq<Slot<K, V>>, keys: seq<K>, budget: nat,
                                                           expired: V -> bool)
    requires forall j :: 0 <= j < |items| ==> (items[j].key in keys <==> j < budget && expired(items[j].value))
    ensures FilterOut(items, keys) == Sweep(items, budget, expired)
  {
    if items != [] {
      var rest := items[1..];
      assert items[0].key in keys <==> 0 < budget && expired(items[0].value);
      assert forall j :: 0 <= j < |rest| ==> rest[j] == items[j + 1];
      FilterIsSweep(rest, keys, if budget == 0 then 0 else budget - 1, expired);
      if budget == 0 {
        assert Sweep(rest, 0, expired) == rest;
      }
    }
  }
}
