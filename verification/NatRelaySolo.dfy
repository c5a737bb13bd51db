/** A relay call that nothing interleaves with does what the sequential relay does. */
module NatRelaySolo {
  import opened Common
  import opened NatTables
  import opened NatIndexes
  import opened NatRelays
  import opened UdpRelays

  /** Task `t` alone has relay `a` at `pc`; what it has not touched is as in `w`. */
  ghost predicate At(w: World, w': World, t: TaskId, a: Relay, pc: Pc, held: bool) {
    && w'.tasks == w.tasks[t := Task(a, pc)]
    && w'.holder == if held then w.holder[a := t] else w.holder
  }

  lemma Stays(w: World, w': World, t: TaskId, a: Relay, relays: set<Relay>, now: Time, later: Time)
    requires At(w, w', t, a, Done, false)
    ensures Next(relays, w', Step(t, now, later)) == w'
  {
    assert w'.tasks[t := Task(a, Done)] == w'.tasks;
  }

  lemma Begins(w: World, t: TaskId, a: Relay, relays: set<Relay>, entry: Pc)
    requires t !in w.tasks && a in relays
    requires entry.SendLock? || entry.SweepLock? || entry.CloseTake? || entry.RecvRead?
    ensures var w' := Next(relays, w, Begin(t, a, entry));
      At(w, w', t, a, entry, false) && w'.table == w.table && w'.mapping == w.mapping
  {
  }

  // -------------------------------------------------------------------------- send

  predicate SameSource(w: World, a: Relay, key: NatKey) {
    a in w.mapping ==> KeyOf(w.mapping[a]) == KeyOf(key)
  }

  lemma SendLocks(w: World, w': World, t: TaskId, a: Relay, relays: set<Relay>, key: NatKey, timeout: nat, now: Time)
    requires a !in w.holder && At(w, w', t, a, SendLock(key, timeout), false)
    requires w'.table == w.table && w'.mapping == w.mapping
    ensures var w'' := Next(relays, w', Step(t, now, now));
      && w''.table == w.table && w''.mapping == w.mapping
      && (SameSource(w, a, key) ==> At(w, w'', t, a, SendTouch(key, timeout), true))
      && (!SameSource(w, a, key) ==> At(w, w'', t, a, Done, false))
  {
  }

  lemma SendTouches(w: World, w': World, t: TaskId, a: Relay, relays: set<Relay>, key: NatKey, timeout: nat,
                    now: Time, later: Time)
    requires a !in w.holder && At(w, w', t, a, SendTouch(key, timeout), true)
    requires w'.table == w.table && w'.mapping == w.mapping
    ensures var w'' := Next(relays, w', Step(t, now, later)); var (n, hit) := SpecTouch(w.table, key, now, later);
      && w''.table == n && w''.mapping == w.mapping
      && (hit.None? ==> At(w, w'', t, a, SendInsert(key, timeout), true))
      && (hit.Some? && hit.value.translated == a ==> At(w, w'', t, a, SendRecord(key), true))
      && (hit.Some? && hit.value.translated != a ==> At(w, w'', t, a, Done, false))
  {
    assert w.holder[a := t] - {a} == w.holder;
  }

  lemma SendInserts(w: World, w': World, t: TaskId, a: Relay, relays: set<Relay>, key: NatKey, timeout: nat, now: Time)
    requires a !in w.holder && At(w, w', t, a, SendInsert(key, timeout), true) && w'.mapping == w.mapping
    ensures var w'' := Next(relays, w', Step(t, now, now)); var (n, r) := SpecInsert(w'.table, key, a, timeout, now);
      && w''.table == n && w''.mapping == w.mapping
      && (r.Ok? ==> At(w, w'', t, a, SendRecord(key), true))
      && (r.Err? ==> At(w, w'', t, a, Done, false))
  {
    assert w.holder[a := t] - {a} == w.holder;
  }

  /** The record a successful send leaves. */
  function RecordAfter(w: World, a: Relay, key: NatKey): NatKey {
    if a in w.mapping then w.mapping[a].(destination := key.destination) else key
  }

  lemma SendRecords(w: World, w': World, t: TaskId, a: Relay, relays: set<Relay>, key: NatKey, now: Time)
    requires a !in w.holder && At(w, w', t, a, SendRecord(key), true) && w'.mapping == w.mapping
    ensures var w'' := Next(relays, w', Step(t, now, now));
      At(w, w'', t, a, Done, false) && w''.table == w'.table && w''.mapping == w.mapping[a := RecordAfter(w, a, key)]
  {
    assert w.holder[a := t] - {a} == w.holder;
  }

  /** A whole send: refused for another source, else the sequential send, recorded exactly on success. */
  lemma SoloSend(w: World, t: TaskId, a: Relay, relays: set<Relay>, key: NatKey, timeout: nat,
                 now: Time, later: Time, insertedAt: Time)
    requires a in relays && t !in w.tasks && a !in w.holder
    ensures var begun := Next(relays, w, Begin(t, a, SendLock(key, timeout)));
      var w' := Next(relays, Next(relays, Next(relays, Next(relays, begun, Step(t, now, now)), Step(t, now, later)),
                                 Step(t, insertedAt, insertedAt)), Step(t, insertedAt, insertedAt));
      && At(w, w', t, a, Done, false)
      && (!SameSource(w, a, key) ==> w'.table == w.table && w'.mapping == w.mapping)
      && (SameSource(w, a, key) ==>
            var (n, r) := SpecSend(w.table, a, timeout, key, now, later, insertedAt);
            && w'.table == n
            && w'.mapping == if r.Ok? then w.mapping[a := RecordAfter(w, a, key)] else w.mapping)
  {
    Begins(w, t, a, relays, SendLock(key, timeout));
    var w1 := Next(relays, w, Begin(t, a, SendLock(key, timeout)));
    SendLocks(w, w1, t, a, relays, key, timeout, now);
    var w2 := Next(relays, w1, Step(t, now, now));
    var w3 := Next(relays, w2, Step(t, now, later));
    if SameSource(w, a, key) {
      SendTouches(w, w2, t, a, relays, key, timeout, now, later);
      SendEnds(w, w3, t, a, relays, key, timeout, now, later, insertedAt);
    } else {
      Stays(w, w2, t, a, relays, now, later);
      Stays(w, w2, t, a, relays, insertedAt, insertedAt);
    }
  }

  lemma SendEnds(w: World, w3: World, t: TaskId, a: Relay, relays: set<Relay>, key: NatKey, timeout: nat,
                 now: Time, later: Time, insertedAt: Time)
    requires a !in w.holder && w3.mapping == w.mapping && w3.table == SpecTouch(w.table, key, now, later).0
    requires var hit := SpecTouch(w.table, key, now, later).1;
      && (hit.None? ==> At(w, w3, t, a, SendInsert(key, timeout), true))
      && (hit.Some? && hit.value.translated == a ==> At(w, w3, t, a, SendRecord(key), true))
      && (hit.Some? && hit.value.translated != a ==> At(w, w3, t, a, Done, false))
    ensures var step := Step(t, insertedAt, insertedAt); var w' := Next(relays, Next(relays, w3, step), step);
      var (n, r) := SpecSend(w.table, a, timeout, key, now, later, insertedAt);
      && At(w, w', t, a, Done, false) && w'.table == n
      && w'.mapping == if r.Ok? then w.mapping[a := RecordAfter(w, a, key)] else w.mapping
  {
    var hit := SpecTouch(w.table, key, now, later).1;
    var w4 := Next(relays, w3, Step(t, insertedAt, insertedAt));
    if hit.None? {
      SendInserts(w, w3, t, a, relays, key, timeout, insertedAt);
      if SpecInsert(w3.table, key, a, timeout, insertedAt).1.Ok? {
        SendRecords(w, w4, t, a, relays, key, insertedAt);
      } else {
        Stays(w, w4, t, a, relays, insertedAt, insertedAt);
      }
    } else if hit.value.translated == a {
      SendRecords(w, w3, t, a, relays, key, insertedAt);
      Stays(w, w4, t, a, relays, insertedAt, insertedAt);
    } else {
      Stays(w, w3, t, a, relays, insertedAt, insertedAt);
    }
  }

  // ------------------------------------------------------------------------- receive

  lemma RecvSteps(w: World, w': World, t: TaskId, a: Relay, relays: set<Relay>, now: Time, later: Time)
    requires a !in w.holder && w'.table == w.table && w'.mapping == w.mapping
    ensures var w'' := Next(relays, w', Step(t, now, later));
      && (At(w, w', t, a, RecvRead, false) ==>
            && w''.table == w.table && w''.mapping == w.mapping
            && At(w, w'', t, a, if a in w.mapping then RecvLookup(w.mapping[a]) else Done, false))
      && (forall key :: At(w, w', t, a, RecvLookup(key), false) ==>
            var (n, hit) := SpecLookupTranslated(w.table, Udp, a, now, later);
            && w''.table == n && w''.mapping == w.mapping
            && At(w, w'', t, a, if hit.Some? then RecvTouch(key) else Done, false))
  {
  }

  lemma RecvTouches(w: World, w': World, t: TaskId, a: Relay, relays: set<Relay>, key: NatKey, now: Time, later: Time)
    requires a !in w.holder && At(w, w', t, a, RecvTouch(key), false)
    ensures var w'' := Next(relays, w', Step(t, now, later));
      At(w, w'', t, a, Done, false) && w''.table == SpecTouch(w'.table, key, now, later).0 && w''.mapping == w'.mapping
  {
  }

  /** A whole receive: the recorded source's binding is looked up and touched, or nothing happens. */
  lemma SoloRecv(w: World, t: TaskId, a: Relay, relays: set<Relay>,
                 now: Time, later: Time, touchedAt: Time, stamp: Time)
    requires a in relays && t !in w.tasks && a !in w.holder
    ensures var begun := Next(relays, w, Begin(t, a, RecvRead));
      var w' := Next(relays, Next(relays, Next(relays, begun, Step(t, now, now)), Step(t, now, later)),
                     Step(t, touchedAt, stamp));
      && At(w, w', t, a, Done, false) && w'.mapping == w.mapping
      && (a !in w.mapping ==> w'.table == w.table)
      && (a in w.mapping ==>
            var (n, hit) := SpecLookupTranslated(w.table, Udp, a, now, later);
            w'.table == if hit.Some? then SpecTouch(n, w.mapping[a], touchedAt, stamp).0 else n)
  {
    Begins(w, t, a, relays, RecvRead);
    var w1 := Next(relays, w, Begin(t, a, RecvRead));
    RecvSteps(w, w1, t, a, relays, now, now);
    var w2 := Next(relays, w1, Step(t, now, now));
    var w3 := Next(relays, w2, Step(t, now, later));
    if a in w.mapping {
      RecvSteps(w, w2, t, a, relays, now, later);
      if SpecLookupTranslated(w.table, Udp, a, now, later).1.Some? {
        RecvTouches(w, w3, t, a, relays, w.mapping[a], touchedAt, stamp);
      } else {
        Stays(w, w3, t, a, relays, touchedAt, stamp);
      }
    } else {
      Stays(w, w2, t, a, relays, now, later);
      Stays(w, w2, t, a, relays, touchedAt, stamp);
    }
  }

  // --------------------------------------------------------------------------- close

  /** A whole close: the recorded source goes, with all its flows, and so does the record. */
  lemma SoloClose(w: World, t: TaskId, a: Relay, relays: set<Relay>, now: Time)
    requires a in relays && t !in w.tasks && a !in w.holder
    ensures var step := Step(t, now, now);
      var w' := Next(relays, Next(relays, Next(relays, w, Begin(t, a, CloseTake)), step), step);
      && At(w, w', t, a, Done, false) && w'.mapping == w.mapping - {a}
      && w'.table == if a in w.mapping then SpecRemoveSource(w.table, KeyOf(w.mapping[a])).0 else w.table
  {
    Begins(w, t, a, relays, CloseTake);
    var w1 := Next(relays, w, Begin(t, a, CloseTake));
    var w2 := Next(relays, w1, Step(t, now, now));
    if a in w.mapping {
      assert At(w, w2, t, a, CloseRemove(w.mapping[a]), false) && w2.table == w.table;
    } else {
      assert At(w, w2, t, a, Done, false) && w2.table == w.table && w2.mapping == w.mapping;
      assert w.mapping - {a} == w.mapping;
      Stays(w, w2, t, a, relays, now, now);
    }
  }

  // --------------------------------------------------------------------------- sweep

  lemma SweepSweeps(w: World, w': World, t: TaskId, a: Relay, relays: set<Relay>, now: Time)
    requires a !in w.holder && At(w, w', t, a, SweepTable, true) && w'.table == w.table && w'.mapping == w.mapping
    ensures var w'' := Next(relays, w', Step(t, now, now));
      var removed := Flows(Restrict(w.table.bindings, ExpiredKeys(w.table.bindings, now)));
      && w''.table == SpecSweep(w.table, now) && w''.mapping == w.mapping
      && (if removed != {} && a in w.mapping
          then At(w, w'', t, a, SweepLookup, true)
          else At(w, w'', t, a, Done, false))
  {
    assert w.holder[a := t] - {a} == w.holder;
  }

  lemma SweepLooks(w: World, w': World, t: TaskId, a: Relay, relays: set<Relay>, now: Time, later: Time)
    requires a !in w.holder && At(w, w', t, a, SweepLookup, true) && w'.mapping == w.mapping
    ensures var w'' := Next(relays, w', Step(t, now, later));
      var (n, hit) := SpecLookupTranslated(w'.table, Udp, a, now, later);
      && w''.table == n && w''.mapping == w.mapping
      && (if hit.None? then At(w, w'', t, a, SweepClear, true) else At(w, w'', t, a, Done, false))
  {
    assert w.holder[a := t] - {a} == w.holder;
  }

  lemma SweepClears(w: World, w': World, t: TaskId, a: Relay, relays: set<Relay>, now: Time)
    requires a !in w.holder && At(w, w', t, a, SweepClear, true) && w'.mapping == w.mapping
    ensures var w'' := Next(relays, w', Step(t, now, now));
      At(w, w'', t, a, Done, false) && w''.table == w'.table && w''.mapping == w.mapping - {a}
  {
    assert w.holder[a := t] - {a} == w.holder;
  }

  /** A whole sweep: the table is swept, and the record goes exactly when no live UDP binding is found for it. */
  lemma SoloSweep(w: World, t: TaskId, a: Relay, relays: set<Relay>, now: Time, probe: Time, later: Time)
    requires a in relays && t !in w.tasks && a !in w.holder
    ensures var begun := Next(relays, w, Begin(t, a, SweepLock));
      var w' := Next(relays, Next(relays, Next(relays, Next(relays, begun, Step(t, now, now)), Step(t, now, now)),
                                 Step(t, probe, later)), Step(t, probe, probe));
      var removed := Flows(Restrict(w.table.bindings, ExpiredKeys(w.table.bindings, now)));
      var (n, hit) := SpecLookupTranslated(SpecSweep(w.table, now), Udp, a, probe, later);
      && At(w, w', t, a, Done, false)
      && (removed == {} || a !in w.mapping ==> w'.table == SpecSweep(w.table, now) && w'.mapping == w.mapping)
      && (removed != {} && a in w.mapping ==>
            w'.table == n && w'.mapping == if hit.None? then w.mapping - {a} else w.mapping)
  {
    Begins(w, t, a, relays, SweepLock);
    var w1 := Next(relays, w, Begin(t, a, SweepLock));
    var w2 := Next(relays, w1, Step(t, now, now));
    assert At(w, w2, t, a, SweepTable, true) && w2.table == w.table && w2.mapping == w.mapping;
    SweepSweeps(w, w2, t, a, relays, now);
    var w3 := Next(relays, w2, Step(t, now, now));
    SweepEnds(w, w3, t, a, relays, now, probe, later);
  }

  lemma SweepEnds(w: World, w3: World, t: TaskId, a: Relay, relays: set<Relay>, now: Time, probe: Time, later: Time)
    requires a !in w.holder && w3.mapping == w.mapping && w3.table == SpecSweep(w.table, now)
    requires var removed := Flows(Restrict(w.table.bindings, ExpiredKeys(w.table.bindings, now)));
      if removed != {} && a in w.mapping then At(w, w3, t, a, SweepLookup, true) else At(w, w3, t, a, Done, false)
    ensures var w' := Next(relays, Next(relays, w3, Step(t, probe, later)), Step(t, probe, probe));
      var removed := Flows(Restrict(w.table.bindings, ExpiredKeys(w.table.bindings, now)));
      var (n, hit) := SpecLookupTranslated(SpecSweep(w.table, now), Udp, a, probe, later);
      && At(w, w', t, a, Done, false)
      && (removed == {} || a !in w.mapping ==> w'.table == SpecSweep(w.table, now) && w'.mapping == w.mapping)
      && (removed != {} && a in w.mapping ==>
            w'.table == n && w'.mapping == if hit.None? then w.mapping - {a} else w.mapping)
  {
    var w4 := Next(relays, w3, Step(t, probe, later));
    if At(w, w3, t, a, SweepLookup, true) {
      SweepLooks(w, w3, t, a, relays, probe, later);
      if SpecLookupTranslated(w3.table, Udp, a, probe, later).1.None? {
        SweepClears(w, w4, t, a, relays, probe);
      } else {
        Stays(w, w4, t, a, relays, probe, probe);
      }
    } else {
      Stays(w, w3, t, a, relays, probe, later);
      Stays(w, w3, t, a, relays, probe, probe);
    }
  }
}
