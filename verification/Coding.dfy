/** Fixed-width integers, variable-length integers and length-prefixed strings (src/util/coding.cc). */
module Coding {
  import opened RaftTypes

  const U32: nat := 0x1_0000_0000
  const U64: nat := 0x1_0000_0000_0000_0000
  const I32: nat := 0x8000_0000

  // ---------- fixed width, little endian

  function Fixed(v: nat, width: nat): (b: Bytes)
    ensures |b| == width
  {
    if width == 0 then [] else [(v % 256) as Byte] + Fixed(v / 256, width - 1)
  }

  function Unfixed(b: Bytes): nat {
    if b == [] then 0 else b[0] as nat + 256 * Unfixed(b[1..])
  }

  function Pow256(width: nat): nat {
    if width == 0 then 1 else 256 * Pow256(width - 1)
  }

  lemma {:induction false} FixedRoundTrip(v: nat, width: nat)
    requires v < Pow256(width)
    ensures Unfixed(Fixed(v, width)) == v
  {
    if width > 0 {
      FixedRoundTrip(v / 256, width - 1);
      assert Fixed(v, width)[1..] == Fixed(v / 256, width - 1);
    }
  }

  /** Only one sequence of bytes of a width stands for a number. */
  lemma {:induction false} FixedOfUnfixed(b: Bytes)
    ensures Fixed(Unfixed(b), |b|) == b
  {
    if b != [] {
      FixedOfUnfixed(b[1..]);
      assert Unfixed(b) / 256 == Unfixed(b[1..]);
      assert Unfixed(b) % 256 == b[0] as nat;
    }
  }

  lemma Widths()
    ensures Pow256(4) == U32 && Pow256(8) == U64
  {
    assert Pow256(2) == 0x1_0000;
    assert Pow256(4) == U32;
    assert Pow256(6) == 0x1_0000 * U32;
  }

  // ---------- variable length

  /** Seven bits a byte, low bits first, the high bit set on all bytes but the last. */
  function Varint(v: nat): (b: Bytes)
    ensures |b| >= 1
  {
    if v < 128 then [v as Byte] else [(v % 128 + 128) as Byte] + Varint(v / 128)
  }

  /** EncodeVarint32: the bytes written for a 32-bit v. */
  function EncodeVarint32(v: nat): (b: Bytes)
    requires v < U32
  {
    if v < 0x80 then
      [v as Byte]
    else if v < 0x4000 then
      [(v % 128 + 128) as Byte, (v / 0x80) as Byte]
    else if v < 0x20_0000 then
      [(v % 128 + 128) as Byte, (v / 0x80 % 128 + 128) as Byte, (v / 0x4000) as Byte]
    else if v < 0x1000_0000 then
      [(v % 128 + 128) as Byte, (v / 0x80 % 128 + 128) as Byte, (v / 0x4000 % 128 + 128) as Byte,
       (v / 0x20_0000) as Byte]
    else
      [(v % 128 + 128) as Byte, (v / 0x80 % 128 + 128) as Byte, (v / 0x4000 % 128 + 128) as Byte,
       (v / 0x20_0000 % 128 + 128) as Byte, (v / 0x1000_0000) as Byte]
  }

  /** The five branches of the encoder are the general form. */
  lemma EncoderIsVarint(v: nat)
    requires v < U32
    ensures EncodeVarint32(v) == Varint(v)
  {
    assert v / 0x80 / 0x80 == v / 0x4000;
    assert v / 0x4000 / 0x80 == v / 0x20_0000;
    assert v / 0x20_0000 / 0x80 == v / 0x1000_0000;
  }

  datatype Read = Got(value: nat, rest: Bytes) | Malformed

  /** The number that at most `left` bytes at the front of b spell. */
  function ReadVarint(b: Bytes, left: nat): Read {
    if left == 0 || b == [] then Malformed
    else if b[0] < 128 then Got(b[0] as nat, b[1..])
    else
      match ReadVarint(b[1..], left - 1)
      case Got(v, rest) => Got(b[0] as nat % 128 + 128 * v, rest)
      case Malformed => Malformed
  }

  /** What a 32-bit number keeps of v. */
  function Wrap(v: nat): nat {
    v % U32
  }

  /** The same in a 32-bit number: what does not fit is lost. */
  function ReadVarint32(b: Bytes): Read {
    match ReadVarint(b, 5)
    case Got(v, rest) => Got(Wrap(v), rest)
    case Malformed => Malformed
  }

  /** A group of bits, moved to where its scale says. */
  function Placed(group: nat, scale: nat): nat {
    scale * group
  }

  lemma GroupFits(sum: nat, group: nat, scale: nat)
    requires group < 128 && sum < scale
    ensures sum + Placed(group, scale) < Placed(128, scale)
  {
    assert (128 - group - 1) * scale >= 0;
  }

  /** What the bytes read so far, which spell `sum`, make of the number that the rest spells. */
  function Carry(sum: nat, scale: nat, r: Read): Read {
    match r
    case Got(v, rest) => Got(sum + scale * v, rest)
    case Malformed => Malformed
  }

  lemma CarryStep(b: Bytes, left: nat, sum: nat, scale: nat)
    requires b != [] && left > 0
    ensures var byte := b[0] as nat;
            Carry(sum, scale, ReadVarint(b, left)) ==
              if byte < 128 then Got(sum + Placed(byte % 128, scale), b[1..])
              else Carry(sum + Placed(byte % 128, scale), Placed(128, scale), ReadVarint(b[1..], left - 1))
  {
    if b[0] >= 128 && ReadVarint(b[1..], left - 1).Got? {
      Regroup(sum, b[0] as nat % 128, scale, ReadVarint(b[1..], left - 1).value);
    }
  }

  lemma CarryStart(r: Read)
    ensures Carry(0, 1, r) == r
  {
  }

  lemma CarryEnd(b: Bytes, left: nat, sum: nat, scale: nat)
    requires b == [] || left == 0
    ensures Carry(sum, scale, ReadVarint(b, left)) == Malformed
  {
  }

  lemma Regroup(sum: nat, group: nat, scale: nat, v: nat)
    ensures (sum + scale * group) + (scale * 128) * v == sum + scale * (group + 128 * v)
  {
  }

  lemma SumWraps(sum: nat, result: nat, more: nat)
    requires result == Wrap(sum)
    ensures Wrap(result + more) == Wrap(sum + more)
  {
    assert sum == sum / U32 * U32 + result;
    assert (sum + more) % U32 == (result + more + sum / U32 * U32) % U32;
  }

  lemma SmallWraps()
    ensures Wrap(0) == 0 && forall v | 0 <= v < 128 :: Wrap(v) == v
  {
  }

  lemma FirstGroup()
    ensures forall group: nat :: Placed(group, 1) == group
  {
  }

  /** GetVarint32Ptr and its fallback loop. The bits gathered so far are below the ones that a byte adds, so
      the source's bitwise or is a sum. */
  method GetVarint32(b: Bytes) returns (r: Read)
    ensures r == ReadVarint32(b)
  {
    hide Wrap, Carry, ReadVarint, Placed;
    SmallWraps();
    FirstGroup();
    CarryStart(ReadVarint(b, 5));
    assert b[0..] == b;
    if |b| > 0 && b[0] < 128 {
      CarryStep(b, 5, 0, 1);
      return Got(b[0] as nat, b[1..]);
    }
    var p, result: nat, scale: nat, left := 0, 0, 1, 5;
    ghost var sum: nat := 0;
    while left > 0 && p < |b|
      invariant 0 <= p <= |b| && left + p == 5
      invariant sum < scale && result == Wrap(sum)
      invariant ReadVarint(b, 5) == Carry(sum, scale, ReadVarint(b[p..], left))
    {
      var byte := b[p] as nat;
      var group := byte % 128;
      CarryStep(b[p..], left, sum, scale);
      p := p + 1;
      assert b[p - 1..][1..] == b[p..];
      GroupFits(sum, group, scale);
      SumWraps(sum, result, Placed(group, scale));
      result := Wrap(result + Placed(group, scale));
      if byte < 128 {
        return Got(result, b[p..]);
      }
      sum := sum + Placed(group, scale);
      scale := Placed(128, scale);
      left := left - 1;
    }
    CarryEnd(b[p..], left, sum, scale);
    return Malformed;
  }

  /** Every 32-bit number comes back, whatever follows it, and exactly its bytes are consumed. */
  lemma VarintRoundTrip(v: nat, rest: Bytes)
    requires v < U32
    ensures ReadVarint32(EncodeVarint32(v) + rest) == Got(v, rest)
  {
    EncoderIsVarint(v);
    assert |EncodeVarint32(v)| <= 5;
    ReadBack(v, rest, 5);
  }

  lemma {:induction false} ReadBack(v: nat, rest: Bytes, left: nat)
    requires |Varint(v)| <= left
    ensures ReadVarint(Varint(v) + rest, left) == Got(v, rest)
    decreases left
  {
    var b := Varint(v) + rest;
    if v < 128 {
      assert b[1..] == rest;
    } else {
      assert b[1..] == Varint(v / 128) + rest;
      ReadBack(v / 128, rest, left - 1);
    }
  }

  lemma EncoderLength(v: nat)
    requires v < U32
    ensures 1 <= |EncodeVarint32(v)| <= 5
  {
  }

  /** The number of bytes tells the size of the number: one byte exactly below 128. */
  lemma OneByteVarint(v: nat)
    ensures |Varint(v)| == 1 <==> v < 128
  {
  }

  // ---------- length-prefixed strings

  /** EncodeString2. */
  function EncodeString2(value: Bytes): (b: Bytes)
    requires |value| < U32
  {
    EncodeVarint32(|value|) + value
  }

  /** A cast to int32_t. */
  function ToI32(v: int): (r: int)
    ensures 0 - I32 <= r < I32
    ensures (r - v) % U32 == 0
  {
    var w := v % U32;
    if w < I32 then w else w - U32
  }

  /** What DecodeString2 gives back: the byte count it claims, the string, and what is left of the input. */
  datatype StringRead = StringRead(claimed: int, result: Bytes, rest: Bytes)

  /** DecodeString2. The source keeps the success flag of DecodeVarint32 in the variable meant for the
      number of bytes of the length, so a success counts as one byte. On failure the claim is -1. */
  function DecodeString2(input: Bytes): (r: StringRead) {
    match ReadVarint32(input)
    case Malformed => StringRead(-1, [], input)
    case Got(len, rest) =>
      if |rest| >= len then StringRead(ToI32(1 + len), rest[..len], rest[len..])
      else StringRead(-1, [], rest)
  }

  /** DecodeString2 gives back every encoded string and what follows it. Its claim is one byte for the length
      plus the string, as far as an int32_t holds that; it is the number of bytes consumed exactly for strings
      under 128 bytes, and not positive exactly from 2^31 - 1 bytes on. */
  lemma StringRoundTrip(value: Bytes, rest: Bytes)
    requires |value| < U32
    ensures var r := DecodeString2(EncodeString2(value) + rest);
            && r.result == value && r.rest == rest
            && (r.claimed == |EncodeString2(value)| <==> |value| < 128)
            && (r.claimed > 0 <==> |value| < I32 - 1)
            && (|value| < I32 - 1 ==> r.claimed == 1 + |value|)
            && 1 + |value| <= |EncodeString2(value)| <= 5 + |value|
  {
    hide ReadVarint32, EncodeVarint32, Varint, ToI32;
    var b := EncodeString2(value) + rest;
    assert b == EncodeVarint32(|value|) + (value + rest);
    VarintRoundTrip(|value|, value + rest);
    EncoderIsVarint(|value|);
    OneByteVarint(|value|);
    EncoderLength(|value|);
    Claim(|value|);
    assert (value + rest)[..|value|] == value && (value + rest)[|value|..] == rest;
  }

  lemma Claim(len: nat)
    requires len < U32
    ensures ToI32(1 + len) > 0 <==> len < I32 - 1
    ensures len < I32 - 1 ==> ToI32(1 + len) == 1 + len
  {
  }
}
