/** The writers of the hosts table: alone, as methods; together, as interleaved steps. */
module HostsWrites {
  import opened Common
  import opened HostsTables

  datatype WriteOp =
    | InsertAll(domain: Name, addresses: IpSet)
    | InsertIp(domain: Name, ip: Ip)
    | InsertAlias(domain: Name, target: Name)
    | InsertPort(domain: Name, hostPort: nat, dispatch: DispatchTarget)
    | Overlay(overrides: Entries)
    | Remove(domain: Name)

  function EntryOf(entries: Entries, domain: Name): HostsEntry {
    if domain in entries then entries[domain] else DEFAULT_ENTRY
  }

  /** Refused writes change nothing. */
  predicate Refused(op: WriteOp) {
    (op.InsertAll? && op.addresses == NO_ADDRESSES) || (op.InsertAlias? && op.domain == op.target)
  }

  /** The section under the entries lock. */
  function Write(entries: Entries, op: WriteOp): Entries {
    if Refused(op) then entries
    else match op
      case InsertAll(domain, addresses) => entries[domain := HostsEntry(Normal(addresses), None, map[])]
      case InsertIp(domain, ip) =>
        var entry := EntryOf(entries, domain);
        entries[domain := entry.(alias := None, addresses := Normal(With(entry.addresses, ip)))]
      case InsertAlias(domain, target) =>
        entries[domain := EntryOf(entries, domain).(alias := Some(target), addresses := NO_ADDRESSES)]
      case InsertPort(domain, hostPort, dispatch) =>
        var entry := EntryOf(entries, domain);
        entries[domain := entry.(portMap := entry.portMap[hostPort := dispatch])]
      case Overlay(overrides) => entries + overrides
      case Remove(domain) => entries - {domain}
  }

  /** Which writers go on to rebuild the reverse index. */
  predicate Rebuilds(entries: Entries, op: WriteOp) {
    !Refused(op) && !op.InsertPort? && (op.Remove? ==> op.domain in entries)
  }

  lemma WriteKeepsTidy(entries: Entries, op: WriteOp)
    requires Tidy(entries) && (op.Overlay? ==> Tidy(op.overrides))
    ensures Tidy(Write(entries, op))
  {
  }

  /** A writer that skips the rebuild leaves every holder set as it was. */
  lemma SkippedRebuildIsHarmless(entries: Entries, op: WriteOp, ptr: Ptr)
    requires !Rebuilds(entries, op) && Indexed(entries, ptr)
    ensures Indexed(Write(entries, op), ptr)
  {
    forall ip ensures Lists(ptr, ip, Holders(Write(entries, op), ip)) {
      assert Lists(ptr, ip, Holders(entries, ip));
      assert Holders(Write(entries, op), ip) == Holders(entries, ip);
    }
  }

  // ---------------------------------------------- what a lookup finds afterwards

  /** Every name but `domain` has the entry it had. */
  ghost predicate OthersUntouched(entries: Entries, after: Entries, domain: Name) {
    forall d :: d != domain ==>
      && (d in after <==> d in entries)
      && (d in entries && d in after ==> after[d] == entries[d])
  }

  /** Inserting a set: the entry holds exactly those addresses, and nothing of the old entry is left. */
  lemma InsertedIsFound(entries: Entries, domain: Name, addresses: IpSet)
    requires addresses.v4 != [] || addresses.v6 != []
    ensures var after := Write(entries, InsertAll(domain, addresses));
      && domain in after && OthersUntouched(entries, after, domain)
      && (forall a :: Holds(after[domain], V4(a)) <==> a in addresses.v4)
      && (forall a :: Holds(after[domain], V6(a)) <==> a in addresses.v6)
      && after[domain].alias.None? && after[domain].portMap == map[]
  {
  }

  lemma EmptyInsertIsRefused(entries: Entries, domain: Name)
    ensures Write(entries, InsertAll(domain, IpSet([], []))) == entries
  {
  }

  /** Adding one address: the old ones and the new one, no alias, the port rows kept. */
  lemma AddedIsFound(entries: Entries, domain: Name, ip: Ip)
    ensures var after := Write(entries, InsertIp(domain, ip));
      && domain in after && OthersUntouched(entries, after, domain)
      && (forall other :: Holds(after[domain], other) <==>
            other == ip || (domain in entries && Holds(entries[domain], other)))
      && after[domain].alias.None?
      && after[domain].portMap == if domain in entries then entries[domain].portMap else map[]
  {
  }

  /** An alias replaces the addresses and keeps the port rows; a self alias changes nothing. */
  lemma AliasIsFound(entries: Entries, domain: Name, target: Name)
    ensures var after := Write(entries, InsertAlias(domain, target));
      && (domain == target ==> after == entries)
      && (domain != target ==>
            && domain in after && OthersUntouched(entries, after, domain)
            && after[domain].alias == Some(target)
            && (forall ip :: !Holds(after[domain], ip))
            && after[domain].portMap == if domain in entries then entries[domain].portMap else map[])
  {
  }

  /** A port row: that port leads to its target, every other port, the addresses and the alias stay. */
  lemma PortRowIsFound(entries: Entries, domain: Name, hostPort: nat, dispatch: DispatchTarget)
    ensures var after := Write(entries, InsertPort(domain, hostPort, dispatch));
      var rows := if domain in entries then entries[domain].portMap else map[];
      && domain in after && OthersUntouched(entries, after, domain)
      && hostPort in after[domain].portMap && after[domain].portMap[hostPort] == dispatch
      && (forall p :: p != hostPort ==> (p in after[domain].portMap <==> p in rows))
      && (forall p :: p != hostPort && p in rows ==> after[domain].portMap[p] == rows[p])
      && (forall ip :: Holds(after[domain], ip) <==> domain in entries && Holds(entries[domain], ip))
      && after[domain].alias == if domain in entries then entries[domain].alias else None
  {
  }

  /** The higher layer wins: an overridden name has the override's entry, every other name its own. */
  lemma OverrideWins(entries: Entries, overrides: Entries, d: Name)
    ensures var after := Write(entries, Overlay(overrides));
      && (d in after <==> d in entries || d in overrides)
      && (d in overrides ==> after[d] == overrides[d])
      && (d in entries && d !in overrides ==> after[d] == entries[d])
  {
  }

  lemma DeletedIsGone(entries: Entries, domain: Name)
    ensures var after := Write(entries, Remove(domain)); domain !in after && OthersUntouched(entries, after, domain)
  {
  }

  // --------------------------------------------------- interleaved writers

  type TaskId = nat

  /** `pending` are the writers that have changed the entries and not yet rebuilt. */
  datatype Shared = Shared(entries: Entries, ptr: Ptr, pending: set<TaskId>)

  /** A rebuild holds the entries lock from its first read until the new index is in place. */
  datatype Event =
    | WriteSection(task: TaskId, op: WriteOp)
    | RebuildSection(task: TaskId, index: Ptr)

  predicate Enabled(s: Shared, e: Event) {
    match e
    case WriteSection(t, op) => t !in s.pending
    case RebuildSection(t, _) => t in s.pending
  }

  /** Overlays come from tables built the same way; an index is what `Rebuild` answers. */
  ghost predicate Legal(s: Shared, e: Event) {
    match e
    case WriteSection(_, op) => op.Overlay? ==> Tidy(op.overrides)
    case RebuildSection(_, index) => Indexed(s.entries, index)
  }

  function Next(s: Shared, e: Event): Shared {
    match e
    case WriteSection(t, op) =>
      Shared(Write(s.entries, op), s.ptr, if Rebuilds(s.entries, op) then s.pending + {t} else s.pending)
    case RebuildSection(t, index) => Shared(s.entries, index, s.pending - {t})
  }

  ghost predicate IsRun(events: seq<Event>) {
    forall i :: 0 <= i < |events| ==> Enabled(Run(events[..i]), events[i]) && Legal(Run(events[..i]), events[i])
  }

  ghost function Run(events: seq<Event>): Shared {
    if events == [] then Shared(map[], map[], {})
    else Next(Run(events[..|events| - 1]), events[|events| - 1])
  }

  /** The entries stay tidy, and the index differs from them only while a rebuild is pending. */
  lemma {:induction false} IndexLagsOnlyWhilePending(events: seq<Event>)
    requires IsRun(events)
    ensures Tidy(Run(events).entries)
    ensures Run(events).pending == {} ==> Indexed(Run(events).entries, Run(events).ptr)
  {
    if events == [] {
      assert forall ip :: Holders(map[], ip) == {} && Elements(ListOf(map[], ip)) == {};
    } else {
      var before, e := events[..|events| - 1], events[|events| - 1];
      assert forall i :: 0 <= i < |before| ==> before[..i] == events[..i];
      IndexLagsOnlyWhilePending(before);
      var s := Run(before);
      assert events[..|events| - 1] == before;
      assert Enabled(s, e) && Legal(s, e);
      if e.WriteSection? {
        WriteKeepsTidy(s.entries, e.op);
        if !Rebuilds(s.entries, e.op) && s.pending == {} {
          SkippedRebuildIsHarmless(s.entries, e.op, s.ptr);
        }
      }
    }
  }

  /** However the writers interleave, once the last rebuild is done the index is a function of the entries. */
  lemma QuietIndexIsDetermined(one: seq<Event>, other: seq<Event>)
    requires IsRun(one) && IsRun(other)
    requires Run(one).pending == {} == Run(other).pending && Run(one).entries == Run(other).entries
    ensures Run(one).ptr == Run(other).ptr
  {
    IndexLagsOnlyWhilePending(one);
    IndexLagsOnlyWhilePending(other);
    IndexIsUnique(Run(one).entries, Run(one).ptr, Run(other).ptr);
  }

  // ---------------------------------------------------------- one writer

  class HostsTable {
    var entries: Entries
    var ptrEntries: Ptr

    ghost predicate Valid()
      reads this
    {
      Tidy(entries) && Indexed(entries, ptrEntries)
    }

    constructor ()
      ensures Valid() && entries == map[]
    {
      entries, ptrEntries := map[], map[];
      new;
      assert forall ip :: Holders(map[], ip) == {} && Elements(ListOf(map[], ip)) == {};
    }

    method RebuildPtrEntries()
      requires Tidy(entries)
      modifies this`ptrEntries
      ensures Valid()
    {
      ptrEntries := Rebuild(entries);
    }

    method Insert(domain: Name, addresses: IpSet) returns (r: Result<(), ErrorKind>)
      requires Valid()
      modifies this
      ensures Valid() && entries == Write(old(entries), InsertAll(domain, addresses))
      ensures r == if addresses == NO_ADDRESSES then Err(InvalidInput) else Ok(())
    {
      if addresses == NO_ADDRESSES {
        return Err(InvalidInput);
      }
      entries := entries[domain := HostsEntry(IpSet(SortDedup(addresses.v4), SortDedup(addresses.v6)), None, map[])];
      RebuildPtrEntries();
      return Ok(());
    }

    method InsertOneIp(domain: Name, ip: Ip)
      requires Valid()
      modifies this
      ensures Valid() && entries == Write(old(entries), InsertIp(domain, ip))
    {
      var entry := if domain in entries then entries[domain] else DEFAULT_ENTRY;
      var addresses := entry.addresses;
      match ip {
        case V4(a) => addresses := addresses.(v4 := addresses.v4 + [a]);
        case V6(a) => addresses := addresses.(v6 := addresses.v6 + [a]);
      }
      addresses := IpSet(SortDedup(addresses.v4), SortDedup(addresses.v6));
      entries := entries[domain := entry.(alias := None, addresses := addresses)];
      RebuildPtrEntries();
    }

    method AddAlias(domain: Name, target: Name) returns (r: Result<(), ErrorKind>)
      requires Valid()
      modifies this
      ensures Valid() && entries == Write(old(entries), InsertAlias(domain, target))
      ensures r == if domain == target then Err(InvalidInput) else Ok(())
    {
      if domain == target {
        return Err(InvalidInput);
      }
      var entry := if domain in entries then entries[domain] else DEFAULT_ENTRY;
      entries := entries[domain := entry.(alias := Some(target), addresses := NO_ADDRESSES)];
      RebuildPtrEntries();
      return Ok(());
    }

    /** A row of the hosts table; a row that maps a name to itself is accepted and ignored. */
    method InsertDomainTarget(domain: Name, hostPort: Option<nat>, target: Target, targetPort: Option<nat>)
      returns (r: Result<(), ErrorKind>)
      requires Valid()
      modifies this
      ensures Valid() && r == Ok(())
      ensures hostPort.Some? && targetPort.Some? ==>
                var dispatch := DispatchTarget(target, targetPort.value);
                entries == Write(old(entries), InsertPort(domain, hostPort.value, dispatch))
      ensures !(hostPort.Some? && targetPort.Some?) ==>
                entries == match target
                           case IpTarget(ip) => Write(old(entries), InsertIp(domain, ip))
                           case DomainTarget(name) => Write(old(entries), InsertAlias(domain, name))
    {
      if hostPort.Some? && targetPort.Some? {
        var entry := if domain in entries then entries[domain] else DEFAULT_ENTRY;
        var dispatch := DispatchTarget(target, targetPort.value);
        SkippedRebuildIsHarmless(entries, InsertPort(domain, hostPort.value, dispatch), ptrEntries);
        entries := entries[domain := entry.(portMap := entry.portMap[hostPort.value := dispatch])];
        return Ok(());
      }
      if target == DomainTarget(domain) {
        return Ok(());
      }
      match target {
        case IpTarget(ip) =>
          InsertOneIp(domain, ip);
          r := Ok(());
        case DomainTarget(name) => r := AddAlias(domain, name);
      }
    }

    method OverlayWith(overrides: HostsTable)
      requires Valid() && overrides.Valid()
      modifies this
      ensures Valid() && entries == Write(old(entries), Overlay(old(overrides.entries)))
      ensures forall d :: d in old(overrides.entries) ==> d in entries && entries[d] == old(overrides.entries)[d]
    {
      entries := entries + overrides.entries;
      RebuildPtrEntries();
    }

    method Delete(domain: Name) returns (removed: bool)
      requires Valid()
      modifies this
      ensures Valid() && entries == Write(old(entries), Remove(domain))
      ensures removed <==> domain in old(entries)
    {
      removed := domain in entries;
      if removed {
        entries := entries - {domain};
        RebuildPtrEntries();
      } else {
        assert entries - {domain} == entries;
      }
    }

    /** The ascending list of exactly the domains that hold the address. */
    method ResolvePtr(ip: Ip) returns (names: seq<Name>)
      requires Valid()
      ensures Ascending(names) && forall d :: d in names <==> d in entries && Holds(entries[d], ip)
    {
      names := if ip in ptrEntries then ptrEntries[ip] else [];
      assert Lists(ptrEntries, ip, Holders(entries, ip));
      assert forall d :: d in names <==> d in Elements(names);
    }
  }
}
