/** The allocation-free gate that recognises DNS queries on the wire. */
module DnsGates {
  import opened Common

  const HEADER_BYTES := 12
  const MAX_LABELS := 127

  function Word(high: Byte, low: Byte): nat {
    high * 256 + low
  }

  // ------------------------------------------------------------- the grammar

  type Label = s: seq<Byte> | 1 <= |s| <= 63 witness [0]

  /** Length-prefixed labels, without the root. */
  function Wire(labels: seq<Label>): seq<Byte> {
    if labels == [] then []
    else
      var last := labels[|labels| - 1];
      var size: Byte := |last|;
      Wire(labels[..|labels| - 1]) + ([size] + last)
  }

  /** The five top bits of the flags, QR and the opcode, are zero, and there is a question. */
  predicate QueryHeader(packet: seq<Byte>) {
    && |packet| >= HEADER_BYTES
    && packet[2] < 8
    && (packet[4] != 0 || packet[5] != 0)
  }

  predicate SupportedType(qtype: nat) {
    qtype == 1 || qtype == 28 || qtype == 12 || qtype == 65 || qtype == 64
  }

  /** `labels` stand right after the header. */
  predicate Spells(packet: seq<Byte>, labels: seq<Label>) {
    HEADER_BYTES <= |packet| && Wire(labels) <= packet[HEADER_BYTES..]
  }

  /** The root, a supported type and two class bytes. */
  predicate Tail(packet: seq<Byte>, root: nat) {
    root + 5 <= |packet| && packet[root] == 0 && SupportedType(Word(packet[root + 1], packet[root + 2]))
  }

  /** Header, labels, root, type and class, and then anything. */
  predicate IsQuery(packet: seq<Byte>, labels: seq<Label>) {
    && QueryHeader(packet) && |labels| <= MAX_LABELS
    && Spells(packet, labels) && Tail(packet, HEADER_BYTES + |Wire(labels)|)
  }

  ghost predicate IsSupportedQuery(packet: seq<Byte>) {
    exists labels :: IsQuery(packet, labels)
  }

  // ---------------------------------------------------------- label positions

  /** Where the first `n` labels end, if that many can be read. */
  function After(packet: seq<Byte>, n: nat): Option<nat> {
    if n == 0 then Some(HEADER_BYTES)
    else
      var at := After(packet, n - 1);
      if at.Some? && at.value < |packet| && 1 <= packet[at.value] <= 63 && at.value + 1 + packet[at.value] <= |packet|
      then Some(at.value + 1 + packet[at.value]) else None
  }

  lemma {:induction false} AfterIsPrefixClosed(packet: seq<Byte>, m: nat, n: nat)
    requires m <= n && After(packet, n).Some?
    ensures After(packet, m).Some?
    decreases n
  {
    if m < n {
      AfterIsPrefixClosed(packet, m, n - 1);
    }
  }

  /** Labels on the wire are found at the positions their lengths give. */
  lemma {:induction false} SpelledLabelsAreRead(packet: seq<Byte>, labels: seq<Label>)
    requires Spells(packet, labels)
    ensures After(packet, |labels|) == Some(HEADER_BYTES + |Wire(labels)|)
  {
    if labels != [] {
      var front, last := labels[..|labels| - 1], labels[|labels| - 1];
      SpelledLabelsAreRead(packet, front);
      assert packet[HEADER_BYTES..][|Wire(front)|] == Wire(labels)[|Wire(front)|] == |last|;
    }
  }

  lemma OneMoreLabel(packet: seq<Byte>, front: seq<Label>, last: Label)
    requires Spells(packet, front)
    requires var at := HEADER_BYTES + |Wire(front)|;
             at + 1 + |last| <= |packet| && packet[at] == |last| && packet[at + 1..at + 1 + |last|] == last
    ensures Spells(packet, front + [last]) && |Wire(front + [last])| == |Wire(front)| + 1 + |last|
  {
    var at := HEADER_BYTES + |Wire(front)|;
    var size: Byte := |last|;
    assert (front + [last])[..|front|] == front;
    assert Wire(front + [last]) == Wire(front) + ([size] + last);
    SlicesJoin(packet, HEADER_BYTES, at, at + 1 + |last|);
    SlicesJoin(packet, at, at + 1, at + 1 + |last|);
    assert packet[at..at + 1] == [size];
    PrefixOfSlice(packet, HEADER_BYTES, Wire(front));
    SliceIsPrefix(packet, HEADER_BYTES, at + 1 + |last|);
  }

  lemma PrefixOfSlice(packet: seq<Byte>, start: nat, bytes: seq<Byte>)
    requires start <= |packet| && bytes <= packet[start..]
    ensures packet[start..start + |bytes|] == bytes
  {
  }

  lemma SliceIsPrefix(packet: seq<Byte>, start: nat, end: nat)
    requires start <= end <= |packet|
    ensures packet[start..end] <= packet[start..]
  {
  }

  /** And whatever is read that way is a list of labels on the wire. */
  lemma {:induction false} ReadLabelsAreSpelled(packet: seq<Byte>, n: nat) returns (labels: seq<Label>)
    requires HEADER_BYTES <= |packet| && After(packet, n).Some?
    ensures |labels| == n && Spells(packet, labels) && After(packet, n).value == HEADER_BYTES + |Wire(labels)|
  {
    if n == 0 {
      labels := [];
    } else {
      var front := ReadLabelsAreSpelled(packet, n - 1);
      var at := HEADER_BYTES + |Wire(front)|;
      var last: Label := packet[at + 1..at + 1 + packet[at]];
      labels := front + [last];
      assert labels[..n - 1] == front;
      OneMoreLabel(packet, front, last);
    }
  }

  /** At most one place can be the root. */
  lemma QueryIsReadOnce(packet: seq<Byte>, labels: seq<Label>, n: nat)
    requires IsQuery(packet, labels) && After(packet, n).Some?
    ensures n <= |labels|
    ensures After(packet, n + 1).None? ==> n == |labels| && Tail(packet, After(packet, n).value)
  {
    SpelledLabelsAreRead(packet, labels);
    if n > |labels| {
      AfterIsPrefixClosed(packet, |labels| + 1, n);
    }
    if n < |labels| {
      AfterIsPrefixClosed(packet, n + 1, |labels|);
    }
  }

  /** If the reading stops at a place that is no tail, or goes on too long, there is no query. */
  lemma Refuted(packet: seq<Byte>, n: nat)
    requires After(packet, n).Some?
    requires n > MAX_LABELS || (After(packet, n + 1).None? && !Tail(packet, After(packet, n).value))
    ensures !IsSupportedQuery(packet)
  {
    forall labels ensures !IsQuery(packet, labels) {
      if IsQuery(packet, labels) {
        QueryIsReadOnce(packet, labels, n);
      }
    }
  }

  lemma Confirmed(packet: seq<Byte>, n: nat)
    requires QueryHeader(packet) && n <= MAX_LABELS && After(packet, n).Some? && Tail(packet, After(packet, n).value)
    ensures IsSupportedQuery(packet)
  {
    var labels := ReadLabelsAreSpelled(packet, n);
    assert IsQuery(packet, labels);
  }

  /** QR and the opcode are the five top bits. */
  lemma TopBits(flags: nat)
    requires flags < 0x1_0000
    ensures flags / 0x8000 % 2 == 0 && flags / 0x800 % 16 == 0 <==> flags < 0x800
  {
    if flags < 0x800 {
      assert flags / 0x8000 == 0 && flags / 0x800 == 0;
    } else if flags < 0x8000 {
      var q := flags / 0x800;
      assert q * 0x800 <= flags < q * 0x800 + 0x800;
      assert 1 <= q < 16;
    } else {
      assert flags / 0x8000 == 1;
    }
  }

  /** A query with the standard opcode, and at least one question. */
  method PassesHeader(packet: seq<Byte>) returns (r: bool)
    ensures r <==> QueryHeader(packet)
  {
    if |packet| < 12 {
      return false;
    }
    var flags := Word(packet[2], packet[3]);
    var questions := Word(packet[4], packet[5]);
    TopBits(flags);
    return flags / 0x8000 % 2 == 0 && flags / 0x800 % 16 == 0 && questions != 0;
  }

  /** Walk the labels in place. */
  method LooksLikeSupportedQuery(packet: seq<Byte>) returns (r: bool)
    ensures r <==> IsSupportedQuery(packet)
  {
    var header := PassesHeader(packet);
    if !header {
      return false;
    }
    var offset, labels := 12, 0;
    while true
      invariant After(packet, labels) == Some(offset) && labels <= MAX_LABELS
      decreases |packet| - offset
    {
      if offset >= |packet| {
        Refuted(packet, labels);
        return false;
      }
      var length := packet[offset];
      if length == 0 {
        break;
      }
      if length / 64 == 3 || length / 64 != 0 || length > 63 {
        Refuted(packet, labels);
        return false;
      }
      var next := offset + 1 + length;
      if next > |packet| {
        Refuted(packet, labels);
        return false;
      }
      offset := next;
      labels := labels + 1;
      if labels > 127 {
        Refuted(packet, labels);
        return false;
      }
    }
    var tail := offset + 1;
    if tail + 4 > |packet| {
      Refuted(packet, labels);
      return false;
    }
    r := SupportedType(Word(packet[tail], packet[tail + 1]));
    if r {
      Confirmed(packet, labels);
    } else {
      Refuted(packet, labels);
    }
  }
}
