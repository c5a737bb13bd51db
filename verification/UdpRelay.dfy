/** One UDP relay as a single thread drives it: the record it keeps of the source it mapped. */
module UdpRelays {
  import opened Common
  import opened NatTables
  import opened NatIndexes

  /** Every UDP source behind `local` is the recorded one. */
  ghost predicate Owns(b: Bindings, local: SocketAddr, mapping: Option<NatKey>) {
    forall k :: Behind(b, Udp, local, k) ==> mapping.Some? && KeyOf(mapping.value) == k
  }

  lemma OwnsAfter(n: Nat, op: NatOp, local: SocketAddr, mapping: Option<NatKey>)
    requires Owns(n.bindings, local, mapping) && !op.InsertOp? && !op.BindOp?
    ensures Owns(SpecStep(n, op).bindings, local, mapping)
  {
    forall k | Behind(SpecStep(n, op).bindings, Udp, local, k)
      ensures mapping.Some? && KeyOf(mapping.value) == k
    {
      OnlyInsertAndBindMap(n, op, Udp, local, k);
    }
  }

  /** An insert maps at most its own source, which the relay records next. */
  lemma OwnsAfterInsert(n: Nat, key: NatKey, local: SocketAddr, idleTimeout: nat, now: Time, mapping: Option<NatKey>)
    requires Owns(n.bindings, local, mapping) && (mapping.Some? ==> KeyOf(mapping.value) == KeyOf(key))
    ensures Owns(SpecStep(n, InsertOp(key, local, idleTimeout, now)).bindings, local, Some(key))
  {
    var n' := SpecStep(n, InsertOp(key, local, idleTimeout, now));
    forall k | Behind(n'.bindings, Udp, local, k)
      ensures KeyOf(key) == k
    {
      OnlyInsertAndBindMap(n, InsertOp(key, local, idleTimeout, now), Udp, local, k);
    }
  }

  /** What the table holds after a send of the recorded source, or the first one. */
  ghost function SpecSend(n: Nat, local: SocketAddr, idleTimeout: nat, key: NatKey,
                          now: Time, later: Time, insertedAt: Time)
    : (Nat, Result<(), ErrorKind>)
  {
    var (touched, hit) := SpecTouch(n, key, now, later);
    if hit.None? then SpecInsert(touched, key, local, idleTimeout, insertedAt)
    else (touched, if hit.value.translated == local then Ok(()) else Err(Closed))
  }

  class UdpNatRelay {
    const table: NatTable
    const local: SocketAddr
    const idleTimeout: nat
    var mapping: Option<NatKey>

    ghost predicate Valid()
      reads this, table
    {
      table.Valid() && Owns(table.entries, local, mapping)
    }

    constructor (table: NatTable, local: SocketAddr, idleTimeout: nat)
      requires table.Valid()
      ensures table.Valid() && mapping == None
      ensures this.table == table && this.local == local && this.idleTimeout == idleTimeout
    {
      this.table, this.local, this.idleTimeout := table, local, idleTimeout;
      mapping := None;
    }

    /** A new relay records nothing, so it owns what is behind its socket exactly when nothing is. */
    static method Bind(table: NatTable, local: SocketAddr, idleTimeout: nat) returns (r: Result<UdpNatRelay, ErrorKind>)
      requires table.Valid()
      ensures r == Err(InvalidInput) <==> idleTimeout == 0
      ensures r.Ok? ==> r.value.mapping == None && r.value.table == table && r.value.local == local
      ensures r.Ok? ==> r.value.idleTimeout == idleTimeout
      ensures r.Ok? ==> (r.value.Valid() <==> !Taken(table.entries, Udp, local))
    {
      if idleTimeout == 0 {
        return Err(InvalidInput);
      }
      var relay := new UdpNatRelay(table, local, idleTimeout);
      return Ok(relay);
    }

    /**
     * One source per relay, and the source's packets leave from this socket
     * or not at all. `written` is how the socket write at the end goes.
     */
    method SendTo(key: NatKey, now: Time, later: Time, insertedAt: Time, written: bool)
      returns (r: Result<(), ErrorKind>)
      requires Valid()
      modifies this, table
      ensures Valid()
      ensures old(mapping).Some? && KeyOf(old(mapping).value) != KeyOf(key) ==>
                r == Err(InvalidInput) && table.Abs() == old(table.Abs()) && mapping == old(mapping)
      ensures old(mapping).None? || KeyOf(old(mapping).value) == KeyOf(key) ==>
                var (n, mapped) := SpecSend(old(table.Abs()), local, idleTimeout, key, now, later, insertedAt);
                && table.Abs() == n
                && r == (if mapped.Err? || written then mapped else Err(Io))
                && (mapped.Err? ==> mapping == old(mapping))
                && (mapped.Ok? ==>
                      && mapping.Some? && KeyOf(mapping.value) == KeyOf(key)
                      && mapping.value.destination == key.destination
                      && Behind(table.entries, key.network, local, KeyOf(key))
                      && key.destination in table.entries[KeyOf(key)].destinations)
    {
      if mapping.Some? && (mapping.value.network != key.network || mapping.value.source != key.source) {
        return Err(InvalidInput);
      }
      r := MapSource(key, now, later, insertedAt);
      if r.Err? {
        return;
      }
      mapping := Some(if mapping.Some? then mapping.value.(destination := key.destination) else key);
      if !written {
        return Err(Io);
      }
    }

    /** Touch the source's binding, or insert one at this socket. */
    method MapSource(key: NatKey, now: Time, later: Time, insertedAt: Time) returns (r: Result<(), ErrorKind>)
      requires Valid() && (mapping.Some? ==> KeyOf(mapping.value) == KeyOf(key))
      modifies table
      ensures table.Valid()
      ensures (table.Abs(), r) == SpecSend(old(table.Abs()), local, idleTimeout, key, now, later, insertedAt)
      ensures r.Err? ==> Owns(table.entries, local, mapping)
      ensures r.Ok? ==>
                && Owns(table.entries, local, Some(key))
                && Behind(table.entries, key.network, local, KeyOf(key))
                && key.destination in table.entries[KeyOf(key)].destinations
    {
      OwnsAfter(table.Abs(), TouchOp(key, now, later), local, mapping);
      var hit := table.Touch(key, now, later);
      if hit.Some? {
        return if hit.value.translated == local then Ok(()) else Err(Closed);
      }
      OwnsAfterInsert(table.Abs(), key, local, idleTimeout, insertedAt, mapping);
      r := table.Insert(key, local, idleTimeout, insertedAt);
    }

    /**
     * Accept a packet from any peer while a UDP binding stands at this
     * socket; report the recorded flow. `received` is how the socket read goes.
     */
    method RecvFrom(peer: SocketAddr, received: bool, now: Time, later: Time, touchedAt: Time, stamp: Time)
      returns (r: Result<NatKey, ErrorKind>)
      requires Valid()
      modifies table
      ensures Valid() && mapping == old(mapping)
      ensures r.Ok? ==> mapping == Some(r.value)
      ensures !received ==> r == Err(Timeout) && table.Abs() == old(table.Abs())
      ensures received && mapping.None? ==> r == Err(NotFound) && table.Abs() == old(table.Abs())
      ensures received && mapping.Some? ==>
                var (n, hit) := SpecLookupTranslated(old(table.Abs()), Udp, local, now, later);
                && r == (if hit.Some? then Ok(mapping.value) else Err(NotFound))
                && table.Abs() == if hit.Some? then SpecTouch(n, mapping.value, touchedAt, stamp).0 else n
    {
      if !received {
        return Err(Timeout);
      }
      if mapping.None? {
        return Err(NotFound);
      }
      OwnsAfter(table.Abs(), LookupTranslatedOp(Udp, local, now, later), local, mapping);
      var hit := table.LookupTranslated(Udp, local, peer, now, later);
      if hit.None? {
        return Err(NotFound);
      }
      OwnsAfter(table.Abs(), TouchOp(mapping.value, touchedAt, stamp), local, mapping);
      var _ := table.Touch(mapping.value, touchedAt, stamp);
      return Ok(mapping.value);
    }

    /** Release the record once the table has no UDP binding at this socket. */
    method Sweep(now: Time, probe: Time, later: Time) returns (removed: nat)
      requires Valid()
      modifies this, table
      ensures Valid() && (mapping == old(mapping) || mapping == None)
      ensures removed == |Flows(Restrict(old(table.entries), ExpiredKeys(old(table.entries), now)))|
      ensures removed == 0 || old(mapping).None? ==>
                mapping == old(mapping) && table.Abs() == SpecSweep(old(table.Abs()), now)
      ensures removed != 0 && old(mapping).Some? ==>
                var (n, hit) := SpecLookupTranslated(SpecSweep(old(table.Abs()), now), Udp, local, probe, later);
                table.Abs() == n && (mapping.None? <==> hit.None?)
    {
      OwnsAfter(table.Abs(), SweepOp(now), local, mapping);
      removed := table.Sweep(now);
      if removed != 0 && mapping.Some? {
        ghost var n := table.Abs();
        OwnsAfter(n, LookupTranslatedOp(Udp, local, probe, later), local, mapping);
        ConservationOverEveryRun(table.history);
        var hit := table.LookupTranslated(Udp, local, mapping.value.source, probe, later);
        if hit.None? {
          FailedLookupLeavesNothing(n, Udp, local, probe, later);
          mapping := None;
        }
      }
    }

    /** Give back everything: no UDP source stays behind this socket, and closing again does nothing. */
    method Close() returns (removed: nat)
      requires Valid()
      modifies this, table
      ensures Valid() && mapping == None && !Taken(table.entries, Udp, local)
      ensures old(mapping).None? ==> removed == 0 && table.Abs() == old(table.Abs())
      ensures old(mapping).Some? ==>
                (table.Abs(), removed) == SpecRemoveSource(old(table.Abs()), KeyOf(old(mapping).value))
    {
      if mapping.None? {
        return 0;
      }
      var key := mapping.value;
      mapping := None;
      OwnsAfter(table.Abs(), RemoveSourceOp(KeyOf(key)), local, Some(key));
      removed := table.RemoveSource(KeyOf(key));
    }
  }
}
