/** Hosts overrides: alias chains over domain names and a derived reverse index. */
module HostsTables {
  import opened Common

  /** A validated, lower-case name. Names are ordered by their bytes. */
  type Name = string

  datatype Ip = V4(address: nat) | V6(address: nat)

  datatype IpSet = IpSet(v4: seq<nat>, v6: seq<nat>)

  datatype Target = IpTarget(ip: Ip) | DomainTarget(name: Name)

  datatype DispatchTarget = DispatchTarget(target: Target, port: nat)

  datatype HostsEntry = HostsEntry(addresses: IpSet, alias: Option<Name>, portMap: map<nat, DispatchTarget>)

  type Entries = map<Name, HostsEntry>

  type Ptr = map<Ip, seq<Name>>

  const NO_ADDRESSES := IpSet([], [])

  const DEFAULT_ENTRY := HostsEntry(NO_ADDRESSES, None, map[])

  // ------------------------------------------------------------ orderings

  predicate Less(a: Name, b: Name) {
    b != [] && (a == [] || a[0] < b[0] || (a[0] == b[0] && Less(a[1..], b[1..])))
  }

  lemma {:induction false} LessTransitive(a: Name, b: Name, c: Name)
    requires Less(a, b) && Less(b, c)
    ensures Less(a, c)
  {
    if a != [] && a[0] == b[0] == c[0] {
      LessTransitive(a[1..], b[1..], c[1..]);
    }
  }

  /** Exactly one of the three holds. */
  lemma {:induction false} LessTrichotomy(a: Name, b: Name)
    ensures a == b || Less(a, b) || Less(b, a)
    ensures !(Less(a, b) && Less(b, a)) && !(a == b && Less(a, b))
  {
    if a != [] && b != [] {
      LessTrichotomy(a[1..], b[1..]);
      assert a == [a[0]] + a[1..] && b == [b[0]] + b[1..];
    }
  }

  predicate Ascending(s: seq<Name>) {
    forall i, j :: 0 <= i < j < |s| ==> Less(s[i], s[j])
  }

  predicate Increasing(s: seq<nat>) {
    forall i, j :: 0 <= i < j < |s| ==> s[i] < s[j]
  }

  lemma HeadIsLeast(s: seq<nat>)
    requires Increasing(s) && s != []
    ensures forall y :: y in s[1..] ==> s[0] < y
  {
    forall y | y in s[1..] ensures s[0] < y {
      var i :| 0 <= i < |s| - 1 && s[1..][i] == y;
      assert s[i + 1] == y;
    }
  }

  lemma PrependIncreases(x: nat, s: seq<nat>)
    requires Increasing(s) && forall y :: y in s ==> x < y
    ensures Increasing([x] + s)
  {
    assert forall i :: 0 <= i < |s| ==> s[i] in s;
  }

  /** Put one address in its place, once. */
  function Place(x: nat, s: seq<nat>): (r: seq<nat>)
    requires Increasing(s)
    ensures Increasing(r) && forall y :: y in r <==> y == x || y in s
  {
    if s == [] || x < s[0] then [x] + s
    else if x == s[0] then s
    else
      var rest := Place(x, s[1..]);
      HeadIsLeast(s);
      PrependIncreases(s[0], rest);
      assert s == [s[0]] + s[1..];
      [s[0]] + rest
  }

  /** Sort and drop duplicates. */
  function SortDedup(s: seq<nat>): (r: seq<nat>)
    ensures Increasing(r) && forall y :: y in r <==> y in s
  {
    if s == [] then [] else Place(s[0], SortDedup(s[1..]))
  }

  function Normal(addresses: IpSet): IpSet {
    IpSet(SortDedup(addresses.v4), SortDedup(addresses.v6))
  }

  function With(addresses: IpSet, ip: Ip): IpSet {
    match ip
    case V4(a) => addresses.(v4 := addresses.v4 + [a])
    case V6(a) => addresses.(v6 := addresses.v6 + [a])
  }

  // ------------------------------------------------------- alias resolution

  /** The name reached after `n` aliases, if the chain is that long. */
  function Reached(entries: Entries, domain: Name, n: nat): Option<Name> {
    if n == 0 then Some(domain)
    else
      var before := Reached(entries, domain, n - 1);
      if before.Some? && before.value in entries && entries[before.value].addresses == NO_ADDRESSES
      then entries[before.value].alias else None
  }

  ghost predicate ChainHasAddresses(entries: Entries, domain: Name, addresses: IpSet) {
    exists n: nat :: ReachesAddresses(entries, domain, n, addresses)
  }

  predicate ReachesAddresses(entries: Entries, domain: Name, n: nat, addresses: IpSet) {
    var name := Reached(entries, domain, n);
    name.Some? && name.value in entries && entries[name.value].addresses == addresses != NO_ADDRESSES
  }

  predicate Repeats(entries: Entries, domain: Name, i: nat, j: nat) {
    i < j && Reached(entries, domain, i).Some? && Reached(entries, domain, i) == Reached(entries, domain, j)
  }

  ghost predicate Cyclic(entries: Entries, domain: Name) {
    exists i: nat, j: nat :: Repeats(entries, domain, i, j)
  }

  lemma {:induction false} ChainIsPrefixClosed(entries: Entries, domain: Name, i: nat, j: nat)
    requires i <= j && Reached(entries, domain, j).Some?
    ensures Reached(entries, domain, i).Some?
    decreases j
  {
    if i < j {
      ChainIsPrefixClosed(entries, domain, i, j - 1);
    }
  }

  lemma {:induction false} RepeatShifts(entries: Entries, domain: Name, i: nat, j: nat, k: nat)
    requires Repeats(entries, domain, i, j)
    ensures Reached(entries, domain, i + k) == Reached(entries, domain, j + k)
  {
    if k > 0 {
      RepeatShifts(entries, domain, i, j, k - 1);
    }
  }

  /** A chain that repeats goes on for ever, so it never stops at an address. */
  lemma {:induction false} CycleNeverEnds(entries: Entries, domain: Name, i: nat, j: nat, n: nat)
    requires Repeats(entries, domain, i, j)
    ensures Reached(entries, domain, n).Some?
    decreases n
  {
    if n <= j {
      ChainIsPrefixClosed(entries, domain, n, j);
    } else {
      CycleNeverEnds(entries, domain, i, j, i + (n - j));
      RepeatShifts(entries, domain, i, j, n - j);
    }
  }

  /** A chain stops at one place at most. */
  lemma StopIsFinal(entries: Entries, domain: Name, n: nat, m: nat)
    requires Reached(entries, domain, n + 1).None? && Reached(entries, domain, m).Some?
    ensures m <= n
  {
    if m > n {
      ChainIsPrefixClosed(entries, domain, n + 1, m);
    }
  }

  lemma StopsWithoutCycle(entries: Entries, domain: Name, n: nat)
    requires Reached(entries, domain, n + 1).None?
    ensures !Cyclic(entries, domain)
  {
    if i: nat, j: nat :| Repeats(entries, domain, i, j) {
      CycleNeverEnds(entries, domain, i, j, n + 1);
    }
  }

  lemma StopDecidesAddresses(entries: Entries, domain: Name, n: nat, addresses: IpSet)
    requires Reached(entries, domain, n).Some? && Reached(entries, domain, n + 1).None?
    ensures ChainHasAddresses(entries, domain, addresses) <==> ReachesAddresses(entries, domain, n, addresses)
  {
    forall m: nat | ReachesAddresses(entries, domain, m, addresses)
      ensures m == n
    {
      StopIsFinal(entries, domain, n, m);
      assert Reached(entries, domain, m + 1).None?;
      StopIsFinal(entries, domain, m, n);
    }
  }

  ghost predicate Earlier(entries: Entries, domain: Name, n: nat, x: Name) {
    exists i: nat :: i < n && Reached(entries, domain, i) == Some(x)
  }

  lemma EarlierGrows(entries: Entries, domain: Name, n: nat, visited: set<Name>)
    requires forall x :: x in visited ==> Earlier(entries, domain, n, x)
    ensures forall x :: x in visited || Reached(entries, domain, n) == Some(x) ==> Earlier(entries, domain, n + 1, x)
  {
    forall x | x in visited
      ensures Earlier(entries, domain, n + 1, x)
    {
      var i: nat :| i < n && Reached(entries, domain, i) == Some(x);
    }
  }

  /** Follow aliases until addresses, a dead end, or a name seen before. */
  method Resolve(entries: Entries, domain: Name) returns (r: Result<Option<IpSet>, ErrorKind>)
    ensures r.Err? <==> Cyclic(entries, domain)
    ensures forall addresses :: r == Ok(Some(addresses)) <==> ChainHasAddresses(entries, domain, addresses)
    ensures r.Err? ==> r.error == InvalidInput
  {
    var current := domain;
    var visited: set<Name> := {};
    ghost var n := 0;
    while true
      invariant Reached(entries, domain, n) == Some(current)
      invariant forall x :: x in visited ==> Earlier(entries, domain, n, x)
      decreases entries.Keys - visited
    {
      if current in visited {
        Cycle(entries, domain, n);
        return Err(InvalidInput);
      }
      if current !in entries {
        Stop(entries, domain, n);
        return Ok(None);
      }
      if entries[current].addresses != NO_ADDRESSES {
        Stop(entries, domain, n);
        return Ok(Some(entries[current].addresses));
      }
      if entries[current].alias.None? {
        Stop(entries, domain, n);
        return Ok(None);
      }
      EarlierGrows(entries, domain, n, visited);
      visited := visited + {current};
      current := entries[current].alias.value;
      n := n + 1;
    }
  }

  lemma Stop(entries: Entries, domain: Name, n: nat)
    requires Reached(entries, domain, n).Some? && Reached(entries, domain, n + 1).None?
    ensures !Cyclic(entries, domain)
    ensures forall addresses ::
              ChainHasAddresses(entries, domain, addresses) <==> ReachesAddresses(entries, domain, n, addresses)
  {
    StopsWithoutCycle(entries, domain, n);
    forall addresses
      ensures ChainHasAddresses(entries, domain, addresses) <==> ReachesAddresses(entries, domain, n, addresses)
    {
      StopDecidesAddresses(entries, domain, n, addresses);
    }
  }

  lemma Cycle(entries: Entries, domain: Name, n: nat)
    requires Reached(entries, domain, n).Some? && Earlier(entries, domain, n, Reached(entries, domain, n).value)
    ensures Cyclic(entries, domain) && forall addresses :: !ChainHasAddresses(entries, domain, addresses)
  {
    var i: nat :| i < n && Reached(entries, domain, i) == Reached(entries, domain, n);
    assert Repeats(entries, domain, i, n);
    forall addresses ensures !ChainHasAddresses(entries, domain, addresses) {
      CycleHasNoAddresses(entries, domain, i, n, addresses);
    }
  }

  lemma CycleHasNoAddresses(entries: Entries, domain: Name, i: nat, j: nat, addresses: IpSet)
    requires Repeats(entries, domain, i, j)
    ensures !ChainHasAddresses(entries, domain, addresses)
  {
    if n: nat :| ReachesAddresses(entries, domain, n, addresses) {
      CycleNeverEnds(entries, domain, i, j, n + 1);
    }
  }

  // ------------------------------------------------------ the reverse index

  predicate Holds(entry: HostsEntry, ip: Ip) {
    match ip
    case V4(a) => a in entry.addresses.v4
    case V6(a) => a in entry.addresses.v6
  }

  /** The domains that hold an address directly. */
  ghost function Holders(entries: Entries, ip: Ip): set<Name> {
    set d | d in entries && Holds(entries[d], ip)
  }

  /** What a reverse lookup answers. */
  function ListOf(ptr: Ptr, ip: Ip): seq<Name> {
    if ip in ptr then ptr[ip] else []
  }

  /** Every address lists exactly its holders, in strictly ascending order. */
  ghost predicate Lists(ptr: Ptr, ip: Ip, names: set<Name>) {
    Ascending(ListOf(ptr, ip)) && Elements(ListOf(ptr, ip)) == names && (ip in ptr ==> ptr[ip] != [])
  }

  ghost predicate Indexed(entries: Entries, ptr: Ptr) {
    forall ip :: Lists(ptr, ip, Holders(entries, ip))
  }

  /** An entry never has both an alias and addresses, never aliases itself, and lists each address once. */
  predicate TidyEntry(domain: Name, entry: HostsEntry) {
    && (entry.alias.Some? ==> entry.addresses == NO_ADDRESSES && entry.alias.value != domain)
    && Increasing(entry.addresses.v4) && Increasing(entry.addresses.v6)
  }

  ghost predicate Tidy(entries: Entries) {
    forall d :: d in entries ==> TidyEntry(d, entries[d])
  }

  lemma NoElements<T>(s: seq<T>)
    ensures Elements(s) == {} <==> s == []
  {
    if s != [] {
      assert s[0] in Elements(s);
    }
  }

  /** An ascending list is determined by its elements, so at most one index fits a table. */
  lemma {:induction false} AscendingIsUnique(s: seq<Name>, t: seq<Name>)
    requires Ascending(s) && Ascending(t) && Elements(s) == Elements(t)
    ensures s == t
  {
    NoElements(s);
    NoElements(t);
    if s != [] {
      assert s[0] in Elements(s) && s[0] in t;
      assert t[0] in Elements(t) && t[0] in s;
      LessTrichotomy(s[0], t[0]);
      assert s[0] == t[0];
      forall x | x in Elements(s[1..]) ensures x in Elements(t[1..]) {
        LessTrichotomy(x, s[0]);
        assert x in Elements(s) && x in t;
      }
      forall x | x in Elements(t[1..]) ensures x in Elements(s[1..]) {
        LessTrichotomy(x, t[0]);
        assert x in Elements(t) && x in s;
      }
      AscendingIsUnique(s[1..], t[1..]);
    }
  }

  lemma IndexIsUnique(entries: Entries, p: Ptr, q: Ptr)
    requires Indexed(entries, p) && Indexed(entries, q)
    ensures p == q
  {
    forall ip ensures (ip in p <==> ip in q) && (ip in p ==> p[ip] == q[ip]) {
      assert Lists(p, ip, Holders(entries, ip)) && Lists(q, ip, Holders(entries, ip));
      AscendingIsUnique(ListOf(p, ip), ListOf(q, ip));
    }
  }

  lemma AppendLargest(s: seq<Name>, d: Name)
    requires Ascending(s) && forall x :: x in Elements(s) ==> Less(x, d)
    ensures Ascending(s + [d]) && Elements(s + [d]) == Elements(s) + {d}
  {
    assert forall i :: 0 <= i < |s| ==> s[i] in Elements(s);
  }

  /** Add one domain to the list of each of its addresses. */
  method PushAddresses(ptr: Ptr, addresses: seq<Ip>, domain: Name) returns (r: Ptr)
    requires forall i, j :: 0 <= i < j < |addresses| ==> addresses[i] != addresses[j]
    ensures forall ip :: ListOf(r, ip) == ListOf(ptr, ip) + if ip in addresses then [domain] else []
    ensures forall ip :: ip in r ==> r[ip] != [] || (ip in ptr && ptr[ip] == [])
  {
    r := ptr;
    for i := 0 to |addresses|
      invariant forall ip :: ListOf(r, ip) == ListOf(ptr, ip) + if ip in addresses[..i] then [domain] else []
      invariant forall ip :: ip in r ==> r[ip] != [] || (ip in ptr && ptr[ip] == [])
    {
      var ip := addresses[i];
      assert ip !in addresses[..i];
      r := r[ip := ListOf(r, ip) + [domain]];
      assert addresses[..i + 1] == addresses[..i] + [ip];
    }
    assert addresses[..|addresses|] == addresses;
  }

  function V4s(s: seq<nat>): seq<Ip> {
    seq(|s|, i requires 0 <= i < |s| => V4(s[i]))
  }

  function V6s(s: seq<nat>): seq<Ip> {
    seq(|s|, i requires 0 <= i < |s| => V6(s[i]))
  }

  lemma IpsOfEntry(entry: HostsEntry, ip: Ip)
    ensures Holds(entry, ip) <==> ip in V4s(entry.addresses.v4) || ip in V6s(entry.addresses.v6)
    ensures ip !in V4s(entry.addresses.v4) || ip !in V6s(entry.addresses.v6)
  {
    var v4, v6 := entry.addresses.v4, entry.addresses.v6;
    if Holds(entry, ip) {
      var i :| 0 <= i && if ip.V4? then i < |v4| && v4[i] == ip.address else i < |v6| && v6[i] == ip.address;
      assert if ip.V4? then V4s(v4)[i] == ip else V6s(v6)[i] == ip;
    }
  }

  method Smallest(names: set<Name>) returns (least: Name)
    requires names != {}
    ensures least in names && forall x :: x in names && x != least ==> Less(least, x)
  {
    least :| least in names;
    var rest := names - {least};
    while rest != {}
      invariant rest <= names && least in names - rest
      invariant forall x :: x in names - rest && x != least ==> Less(least, x)
    {
      var x :| x in rest;
      rest := rest - {x};
      LessTrichotomy(least, x);
      if Less(x, least) {
        forall y | y in names - rest && y != x ensures Less(x, y) {
          if y != least {
            LessTransitive(x, least, y);
          }
        }
        least := x;
      }
    }
  }

  /** Walk the table in name order and collect the reverse lists. */
  method Rebuild(entries: Entries) returns (ptr: Ptr)
    requires Tidy(entries)
    ensures Indexed(entries, ptr)
  {
    ptr := map[];
    var rest := entries.Keys;
    while rest != {}
      invariant rest <= entries.Keys
      invariant forall x, y :: x in entries.Keys - rest && y in rest ==> Less(x, y)
      invariant forall ip :: Lists(ptr, ip, Holders(entries, ip) - rest)
    {
      var domain := Smallest(rest);
      ptr := PushEntry(entries, rest, ptr, domain);
      rest := rest - {domain};
    }
    assert forall ip :: Holders(entries, ip) - {} == Holders(entries, ip);
  }

  method PushEntry(entries: Entries, ghost rest: set<Name>, ptr: Ptr, domain: Name) returns (r: Ptr)
    requires domain in entries && domain in rest && TidyEntry(domain, entries[domain])
    requires forall x :: x in entries.Keys - rest ==> Less(x, domain)
    requires forall ip :: Lists(ptr, ip, Holders(entries, ip) - rest)
    ensures forall ip :: Lists(r, ip, Holders(entries, ip) - (rest - {domain}))
  {
    var entry := entries[domain];
    r := PushAddresses(ptr, V4s(entry.addresses.v4), domain);
    r := PushAddresses(r, V6s(entry.addresses.v6), domain);
    forall ip ensures Lists(r, ip, Holders(entries, ip) - (rest - {domain})) {
      assert Lists(ptr, ip, Holders(entries, ip) - rest);
      IpsOfEntry(entry, ip);
      PushedLists(entries, rest, ptr, r, domain, ip);
    }
  }

  /** Appending a domain larger than all before it keeps one list right. */
  lemma PushedLists(entries: Entries, rest: set<Name>, ptr: Ptr, r: Ptr, domain: Name, ip: Ip)
    requires domain in entries && domain in rest && forall x :: x in entries.Keys - rest ==> Less(x, domain)
    requires Lists(ptr, ip, Holders(entries, ip) - rest) && (ip in r ==> r[ip] != [])
    requires ListOf(r, ip) == ListOf(ptr, ip) + if Holds(entries[domain], ip) then [domain] else []
    ensures Lists(r, ip, Holders(entries, ip) - (rest - {domain}))
  {
    if Holds(entries[domain], ip) {
      AppendLargest(ListOf(ptr, ip), domain);
      assert Holders(entries, ip) - (rest - {domain}) == Holders(entries, ip) - rest + {domain};
    } else {
      assert ListOf(r, ip) == ListOf(ptr, ip);
      assert Holders(entries, ip) - (rest - {domain}) == Holders(entries, ip) - rest;
    }
  }

  // ---------------------------------------------------------- the order of names

  /** The first place where two names differ. */
  predicate DifferAt(a: Name, b: Name, k: nat) {
    k < |a| && k < |b| && a[..k] == b[..k] && a[k] < b[k]
  }

  /** The order is by bytes: a proper prefix comes first, else the first difference decides. */
  lemma {:induction false} LessIsBytewise(a: Name, b: Name)
    ensures Less(a, b) <==> a < b || exists k: nat :: DifferAt(a, b, k)
  {
    if a != [] && b != [] && a[0] == b[0] {
      LessIsBytewise(a[1..], b[1..]);
      assert a == [a[0]] + a[1..] && b == [b[0]] + b[1..];
      if k: nat :| DifferAt(a[1..], b[1..], k) {
        assert a[..k + 1] == [a[0]] + a[1..][..k] && b[..k + 1] == [b[0]] + b[1..][..k];
        assert DifferAt(a, b, k + 1);
      }
      if k: nat :| DifferAt(a, b, k) {
        assert k > 0;
        assert a[1..][..k - 1] == a[..k][1..] && b[1..][..k - 1] == b[..k][1..];
        assert DifferAt(a[1..], b[1..], k - 1);
      }
    } else if a != [] && b != [] && a[0] < b[0] {
      assert DifferAt(a, b, 0);
    } else if a != [] && b != [] {
      forall k: nat ensures !DifferAt(a, b, k) {
        assert k > 0 && k < |a| && k < |b| ==> a[..k][0] != b[..k][0];
      }
    }
  }
}
