/** QUIC variable-length integers and the datagrams framed with them (section 16 of RFC 9000). */
module Varints {
  import opened Common

  type Bytes = seq<Byte>

  function Pow256(n: nat): nat {
    if n == 0 then 1 else 256 * Pow256(n - 1)
  }

  /** `n` bytes, most significant first. */
  function BigEndian(value: nat, n: nat): (r: Bytes)
    ensures |r| == n
  {
    if n == 0 then [] else BigEndian(value / 256, n - 1) + [value % 256]
  }

  function FromBigEndian(bytes: Bytes): nat {
    if bytes == [] then 0 else 256 * FromBigEndian(bytes[..|bytes| - 1]) + bytes[|bytes| - 1]
  }

  lemma {:induction false} BigEndianRoundTrip(value: nat, n: nat)
    requires value < Pow256(n)
    ensures FromBigEndian(BigEndian(value, n)) == value
  {
    if n > 0 {
      BigEndianRoundTrip(value / 256, n - 1);
      assert BigEndian(value, n)[..n - 1] == BigEndian(value / 256, n - 1);
    }
  }

  /** The first byte carries the most weight. */
  lemma {:induction false} FirstByteWeighs(bytes: Bytes)
    requires bytes != []
    ensures FromBigEndian(bytes) == bytes[0] * Pow256(|bytes| - 1) + FromBigEndian(bytes[1..])
    ensures FromBigEndian(bytes[1..]) < Pow256(|bytes| - 1)
  {
    if |bytes| == 1 {
      assert bytes[..0] == [] && bytes[1..] == [];
    } else {
      var n := |bytes| - 1;
      var front := bytes[..n];
      FirstByteWeighs(front);
      assert front[1..] == bytes[1..][..n - 1];
      Scales(bytes[0], Pow256(n - 1));
    }
  }

  lemma Scales(a: nat, weight: nat)
    ensures a * (256 * weight) == 256 * (a * weight)
  {
  }

  lemma Powers()
    ensures Pow256(0) == 1 && Pow256(1) == 0x100 && Pow256(2) == 0x1_0000 && Pow256(3) == 0x100_0000
    ensures Pow256(4) == 0x1_0000_0000 && Pow256(7) == 0x100_0000_0000_0000 && Pow256(8) == 0x1_0000_0000_0000_0000
  {
    assert Pow256(5) == 0x100_0000_0000 && Pow256(6) == 0x1_0000_0000_0000;
  }

  // ------------------------------------------------------------ the integers

  const LIMIT := 0x4000_0000_0000_0000

  /** The exponent kept in the two top bits, and the values it leaves room for. */
  function Capacity(n: nat): nat {
    if n == 1 then 0x40 else if n == 2 then 0x4000 else if n == 4 then 0x4000_0000 else LIMIT
  }

  function Size(value: nat): nat {
    if value < 0x40 then 1 else if value < 0x4000 then 2 else if value < 0x4000_0000 then 4 else 8
  }

  /** The two top bits, as a multiple of the capacity. */
  function Tag(n: nat): nat {
    if n == 1 then 0 else if n == 2 then 1 else if n == 4 then 2 else 3
  }

  function Varint(value: nat): (r: Bytes)
    requires value < LIMIT
    ensures |r| == Size(value)
  {
    BigEndian(Tag(Size(value)) * Capacity(Size(value)) + value, Size(value))
  }

  function FirstSize(first: Byte): nat {
    if first < 64 then 1 else if first < 128 then 2 else if first < 192 then 4 else 8
  }

  /** The value and how many bytes it took. */
  function DecodeVarint(input: Bytes): Result<(nat, nat), ErrorKind> {
    if input == [] then Err(InvalidInput)
    else
      var n := FirstSize(input[0]);
      if |input| < n then Err(InvalidInput)
      else Ok((FromBigEndian(input[..n]) % Capacity(n), n))
  }

  /** Push an integer on the output, its tag added into the two free top bits, or refuse one over 62 bits. */
  method EncodeVarint(value: nat, output: Bytes) returns (r: Result<Bytes, ErrorKind>)
    ensures r == if value < LIMIT then Ok(output + Varint(value)) else Err(InvalidInput)
  {
    if value > 0x3fff_ffff_ffff_ffff {
      return Err(InvalidInput);
    }
    if value < 0x40 {
      assert BigEndian(value, 1) == BigEndian(0, 0) + [value] == [value];
      return Ok(output + [value]);
    } else if value < 0x4000 {
      return Ok(output + BigEndian(value + 0x4000, 2));
    } else if value < 0x4000_0000 {
      return Ok(output + BigEndian(value + 0x8000_0000, 4));
    } else {
      return Ok(output + BigEndian(value + 0xc000_0000_0000_0000, 8));
    }
  }

  lemma TaggedValue(value: nat)
    requires value < LIMIT
    ensures var n := Size(value); var tagged := Tag(n) * Capacity(n) + value;
            tagged < Pow256(n) && tagged % Capacity(n) == value
  {
    Powers();
  }

  lemma FirstByteTellsSize(value: nat)
    requires value < LIMIT
    ensures FirstSize(Varint(value)[0]) == Size(value)
  {
    var n, bytes := Size(value), Varint(value);
    Powers();
    TaggedValue(value);
    BigEndianRoundTrip(Tag(n) * Capacity(n) + value, n);
    FirstByteWeighs(bytes);
  }

  /** Decoding gives the value back whatever follows. */
  lemma VarintRoundTrip(value: nat, suffix: Bytes)
    requires value < LIMIT
    ensures DecodeVarint(Varint(value) + suffix) == Ok((value, Size(value)))
  {
    var n := Size(value);
    FirstByteTellsSize(value);
    TaggedValue(value);
    BigEndianRoundTrip(Tag(n) * Capacity(n) + value, n);
    assert (Varint(value) + suffix)[..n] == Varint(value);
  }

  /** A cut encoding is refused. */
  lemma TruncatedVarint(value: nat, k: nat)
    requires value < LIMIT && k < Size(value)
    ensures DecodeVarint(Varint(value)[..k]) == Err(InvalidInput)
  {
    FirstByteTellsSize(value);
  }

  /** Decoding reads only what it reports, which is within the input. */
  lemma DecodeReadsWhatItReports(input: Bytes, other: Bytes)
    requires DecodeVarint(input).Ok?
    ensures var (value, n) := DecodeVarint(input).value;
            && n <= |input| && n in {1, 2, 4, 8} && value < LIMIT
            && DecodeVarint(input[..n] + other) == DecodeVarint(input)
  {
    var n := DecodeVarint(input).value.1;
    assert (input[..n] + other)[..n] == input[..n];
  }

  /** No input encodes a value in fewer bytes than the encoder uses. */
  lemma EncodingIsShortest(input: Bytes)
    requires DecodeVarint(input).Ok?
    ensures Size(DecodeVarint(input).value.0) <= DecodeVarint(input).value.1
  {
  }

  // ------------------------------------------------------------ the datagrams

  method EncodeDatagram(flow: nat, packet: Bytes) returns (r: Result<Bytes, ErrorKind>)
    ensures r == if flow < LIMIT then Ok(Varint(flow) + Varint(0) + packet) else Err(InvalidInput)
  {
    var output := EncodeVarint(flow, []);
    if output.Err? {
      return output;
    }
    output := EncodeVarint(0, output.value);
    if output.Err? {
      return output;
    }
    assert [] + Varint(flow) == Varint(flow);
    return Ok(output.value + packet);
  }

  /** A flow, a context that must be zero, and the rest; the two integers always end within the input. */
  function DecodeDatagram(bytes: Bytes): Result<(nat, Bytes), ErrorKind> {
    var flow := DecodeVarint(bytes);
    if flow.Err? then Err(InvalidInput)
    else
      DecodeIsWithin(bytes);
      var context := DecodeVarint(bytes[flow.value.1..]);
      if context.Err? then Err(InvalidInput)
      else if context.value.0 != 0 then Err(Unsupported)
      else
        DecodeIsWithin(bytes[flow.value.1..]);
        Ok((flow.value.0, bytes[flow.value.1 + context.value.1..]))
  }

  lemma DecodeIsWithin(input: Bytes)
    requires DecodeVarint(input).Ok?
    ensures 1 <= DecodeVarint(input).value.1 <= |input|
  {
  }

  /** What goes in comes out: the flow and the payload, unchanged. */
  lemma DatagramRoundTrip(flow: nat, packet: Bytes)
    requires flow < LIMIT
    ensures DecodeDatagram(Varint(flow) + Varint(0) + packet) == Ok((flow, packet))
  {
    var bytes := Varint(flow) + Varint(0) + packet;
    assert bytes == Varint(flow) + (Varint(0) + packet);
    VarintRoundTrip(flow, Varint(0) + packet);
    assert bytes[Size(flow)..] == Varint(0) + packet;
    VarintRoundTrip(0, packet);
    assert bytes[Size(flow) + 1..] == packet;
  }

  /** One whole integer and nothing else. */
  predicate IsVarint(bytes: Bytes, value: nat) {
    DecodeVarint(bytes) == Ok((value, |bytes|))
  }

  predicate Parts(bytes: Bytes, head: Bytes, context: Bytes, flow: nat, payload: Bytes) {
    IsVarint(head, flow) && IsVarint(context, 0) && bytes == head + context + payload
  }

  ghost predicate Framed(bytes: Bytes, flow: nat, payload: Bytes) {
    exists head, context :: Parts(bytes, head, context, flow, payload)
  }

  lemma FramedIsDecoded(head: Bytes, context: Bytes, flow: nat, payload: Bytes)
    requires IsVarint(head, flow) && IsVarint(context, 0)
    ensures DecodeDatagram(head + context + payload) == Ok((flow, payload))
  {
    var bytes := head + context + payload;
    ConcatIsAssociative(head, context, payload);
    ConcatSplits(head, context + payload);
    ConcatSplits(head + context, payload);
    WholeVarint(head, flow, context + payload);
    WholeVarint(context, 0, payload);
    assert bytes[|head|..] == context + payload;
    assert bytes[|head| + |context|..] == payload;
  }

  lemma WholeVarint(bytes: Bytes, value: nat, suffix: Bytes)
    requires IsVarint(bytes, value)
    ensures DecodeVarint(bytes + suffix) == Ok((value, |bytes|))
  {
    DecodeReadsWhatItReports(bytes, suffix);
    assert bytes[..|bytes|] == bytes;
  }

  /** What was decoded is a whole integer at the front of the input. */
  lemma FrontIsVarint(input: Bytes)
    requires DecodeVarint(input).Ok?
    ensures var (value, n) := DecodeVarint(input).value;
            n <= |input| && IsVarint(input[..n], value) && input == input[..n] + input[n..]
  {
    DecodeReadsWhatItReports(input, []);
    var n := DecodeVarint(input).value.1;
    assert input[..n] + [] == input[..n];
  }

  lemma DecodedIsFramed(bytes: Bytes, flow: nat, payload: Bytes)
    requires DecodeDatagram(bytes) == Ok((flow, payload))
    ensures Framed(bytes, flow, payload)
  {
    FrontIsVarint(bytes);
    var n := DecodeVarint(bytes).value.1;
    FrontIsVarint(bytes[n..]);
    var m := DecodeVarint(bytes[n..]).value.1;
    var head, context := bytes[..n], bytes[n..][..m];
    assert payload == bytes[n..][m..];
    ConcatIsAssociative(head, context, payload);
    assert Parts(bytes, head, context, flow, payload);
  }

  /** Accepted datagrams are exactly an integer, a zero context in any width, and the payload. */
  lemma DecodedExactlyWhenFramed(bytes: Bytes, flow: nat, payload: Bytes)
    ensures DecodeDatagram(bytes) == Ok((flow, payload)) <==> Framed(bytes, flow, payload)
  {
    if DecodeDatagram(bytes) == Ok((flow, payload)) {
      DecodedIsFramed(bytes, flow, payload);
    }
    if Framed(bytes, flow, payload) {
      var head, context :| Parts(bytes, head, context, flow, payload);
      FramedIsDecoded(head, context, flow, payload);
    }
  }

  // ------------------------------------------- the bytes of section 16 of RFC 9000

  lemma OneMoreByte(bytes: Bytes, n: nat)
    requires n < |bytes|
    ensures FromBigEndian(bytes[..n + 1]) == 256 * FromBigEndian(bytes[..n]) + bytes[n]
  {
    assert bytes[..n + 1][..n] == bytes[..n];
  }

  function Word16(a: nat, b: nat): nat {
    a * 256 + b
  }

  /** The number spelled by four bytes. */
  function Word32(a: nat, b: nat, c: nat, d: nat): nat {
    ((a * 256 + b) * 256 + c) * 256 + d
  }

  lemma FourBytes(bytes: Bytes)
    requires |bytes| >= 4
    ensures FromBigEndian(bytes[..1]) == bytes[0] && FromBigEndian(bytes[..2]) == Word16(bytes[0], bytes[1])
    ensures FromBigEndian(bytes[..4]) == Word32(bytes[0], bytes[1], bytes[2], bytes[3])
  {
    assert bytes[..0] == [];
    OneMoreByte(bytes, 0);
    OneMoreByte(bytes, 1);
    OneMoreByte(bytes, 2);
    OneMoreByte(bytes, 3);
  }

  lemma TwoBytes(bytes: Bytes)
    requires |bytes| >= 2
    ensures FromBigEndian(bytes[..1]) == bytes[0] && FromBigEndian(bytes[..2]) == Word16(bytes[0], bytes[1])
  {
    assert bytes[..0] == [];
    OneMoreByte(bytes, 0);
    OneMoreByte(bytes, 1);
  }

  lemma EightBytes(bytes: Bytes)
    requires |bytes| >= 8
    ensures FromBigEndian(bytes[..8]) ==
              Word32(bytes[0], bytes[1], bytes[2], bytes[3]) * 0x1_0000_0000
              + Word32(bytes[4], bytes[5], bytes[6], bytes[7])
  {
    FourBytes(bytes);
    OneMoreByte(bytes, 4);
    OneMoreByte(bytes, 5);
    OneMoreByte(bytes, 6);
    OneMoreByte(bytes, 7);
  }

  lemma OneByte(bytes: Bytes)
    requires |bytes| >= 1
    ensures FromBigEndian(bytes[..1]) == bytes[0]
  {
    assert bytes[..0] == [];
    OneMoreByte(bytes, 0);
  }

  /** Taking the tag off again. */
  lemma Untag(n: nat, total: nat, value: nat)
    requires n in {2, 4, 8} && value < Capacity(n) && total == Tag(n) * Capacity(n) + value
    ensures total % Capacity(n) == value
  {
  }

  lemma DecodedAs(input: Bytes, n: nat, value: nat)
    requires input != [] && n == FirstSize(input[0]) && n in {2, 4, 8} && |input| >= n
    requires value < Capacity(n) && FromBigEndian(input[..n]) == Tag(n) * Capacity(n) + value
    ensures DecodeVarint(input) == Ok((value, n))
  {
    Untag(n, FromBigEndian(input[..n]), value);
  }

  lemma DecodedTwo(input: Bytes)
    requires |input| >= 2 && 64 <= input[0] < 128
    ensures DecodeVarint(input) == Ok((Word16(input[0] - 64, input[1]), 2))
  {
    TwoBytes(input);
    DecodedAs(input, 2, Word16(input[0] - 64, input[1]));
  }

  lemma DecodedFour(input: Bytes)
    requires |input| >= 4 && 128 <= input[0] < 192
    ensures DecodeVarint(input) == Ok((Word32(input[0] - 128, input[1], input[2], input[3]), 4))
  {
    FourBytes(input);
    DecodedAs(input, 4, Word32(input[0] - 128, input[1], input[2], input[3]));
  }

  lemma DecodedEight(input: Bytes)
    requires |input| >= 8 && 192 <= input[0]
    ensures DecodeVarint(input) ==
              Ok((Word32(input[0] - 192, input[1], input[2], input[3]) * 0x1_0000_0000
                  + Word32(input[4], input[5], input[6], input[7]), 8))
  {
    EightBytes(input);
    var high := Word32(input[0] - 192, input[1], input[2], input[3]);
    DecodedAs(input, 8, high * 0x1_0000_0000 + Word32(input[4], input[5], input[6], input[7]));
  }

  /** The two top bits give the length, the other bits the value. */
  lemma DecodedByTopBits(input: Bytes)
    ensures DecodeVarint(input).Err? <==>
              || |input| == 0
              || (input[0] >= 64 && |input| < 2)
              || (input[0] >= 128 && |input| < 4)
              || (input[0] >= 192 && |input| < 8)
    ensures DecodeVarint(input).Err? ==> DecodeVarint(input) == Err(InvalidInput)
    ensures |input| >= 1 && input[0] < 64 ==> DecodeVarint(input) == Ok((input[0], 1))
    ensures |input| >= 2 && 64 <= input[0] < 128 ==>
              DecodeVarint(input) == Ok((Word16(input[0] - 64, input[1]), 2))
    ensures |input| >= 4 && 128 <= input[0] < 192 ==>
              DecodeVarint(input) == Ok((Word32(input[0] - 128, input[1], input[2], input[3]), 4))
    ensures |input| >= 8 && 192 <= input[0] ==>
              DecodeVarint(input) ==
                Ok((Word32(input[0] - 192, input[1], input[2], input[3]) * 0x1_0000_0000
                    + Word32(input[4], input[5], input[6], input[7]), 8))
  {
    if |input| >= 1 && input[0] < 64 {
      OneByte(input);
    } else if |input| >= 2 && input[0] < 128 {
      DecodedTwo(input);
    } else if |input| >= 4 && input[0] < 192 {
      DecodedFour(input);
    } else if |input| >= 8 {
      DecodedEight(input);
    }
  }

  /** The encoder's bytes: the width by size, the tag on top, the value below it. */
  lemma EncodedBytes(value: nat)
    requires value < LIMIT
    ensures var r := Varint(value);
            && (value < 0x40 ==> r == [value])
            && (0x40 <= value < 0x4000 ==>
                  |r| == 2 && 64 <= r[0] < 128 && value == Word16(r[0] - 64, r[1]))
            && (0x4000 <= value < 0x4000_0000 ==>
                  |r| == 4 && 128 <= r[0] < 192 && value == Word32(r[0] - 128, r[1], r[2], r[3]))
            && (0x4000_0000 <= value ==>
                  && |r| == 8 && 192 <= r[0]
                  && value == Word32(r[0] - 192, r[1], r[2], r[3]) * 0x1_0000_0000 + Word32(r[4], r[5], r[6], r[7]))
  {
    var r := Varint(value);
    VarintRoundTrip(value, []);
    assert r + [] == r;
    FirstByteTellsSize(value);
    DecodedByTopBits(r);
  }
}
