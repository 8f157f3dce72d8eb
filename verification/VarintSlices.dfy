/** Varints written into a caller's slice, and read one byte at a time (`webtransport/src/varint.rs`). */
module VarintSlices {
  import opened MoqTypes
  import opened Modulo
  import opened Varint
  import opened CodecErrors

  /** Write v at the start of buf: how many bytes, or why not, leaving buf as it was. */
  method EncodeInto(v: nat, buf: array<Byte>) returns (r: Result<nat>)
    modifies buf
    ensures v > MAX_VARINT ==> r == Err(VarintOverflow)
    ensures v <= MAX_VARINT ==> r == if buf.Length < VarintLen(v) then Err(BufferTooShort) else Ok(VarintLen(v))
    ensures buf[..] == if r.Ok? then EncVarint(v).value + old(buf[..])[r.value..] else old(buf[..])
  {
    if v > MAX_VARINT {
      return Err(VarintOverflow);
    }
    var len := VarintLen(v);
    if buf.Length < len {
      return Err(BufferTooShort);
    }
    if len == 1 {
      OneByte(v);
      buf[0] := v;
    } else if len == 2 {
      TwoBytes(v);
      buf[0], buf[1] := 0x40 + v / 0x100, v % 0x100;
    } else if len == 4 {
      FourBytes(v);
      buf[0], buf[1] := 0x80 + v / 0x100_0000, v / 0x1_0000 % 0x100;
      buf[2], buf[3] := v / 0x100 % 0x100, v % 0x100;
    } else {
      EightBytes(v);
      buf[0], buf[1] := 0xc0 + v / 0x100_0000_0000_0000, v / 0x1_0000_0000_0000 % 0x100;
      buf[2], buf[3] := v / 0x100_0000_0000 % 0x100, v / 0x1_0000_0000 % 0x100;
      buf[4], buf[5] := v / 0x100_0000 % 0x100, v / 0x1_0000 % 0x100;
      buf[6], buf[7] := v / 0x100 % 0x100, v % 0x100;
    }
    return Ok(len);
  }

  // ---- A varint read byte by byte ----

  /** What the bits of the first byte below the length and the bytes after it make. */
  function Gathered(fed: Bytes): nat {
    if fed == [] then 0 else Value([fed[0] % 64] + fed[1..])
  }

  /** Eight bits shifted in, in 64 bits. */
  function ShiftIn(v: nat, x: Byte): nat { (256 * v + x) % (MAX_U64 + 1) }

  lemma ShiftInModulo(v: nat, x: Byte)
    ensures ShiftIn(v % (MAX_U64 + 1), x) == (256 * v + x) % (MAX_U64 + 1)
  {
    var m := MAX_U64 + 1;
    ModOfMultiple(256 * (v % m) + x, 256 * (v / m), m);
    SplitShift(v, x, m);
  }

  lemma SplitShift(v: nat, x: nat, m: nat)
    requires m > 0
    ensures 256 * v + x == 256 * (v % m) + x + 256 * (v / m) * m
  {
    var q, r := v / m, v % m;
    assert v == q * m + r;
  }

  lemma GatheredStep(fed: Bytes, x: Byte)
    requires fed != []
    ensures Gathered(fed + [x]) == 256 * Gathered(fed) + x
    ensures ShiftIn(Gathered(fed) % (MAX_U64 + 1), x) == Gathered(fed + [x]) % (MAX_U64 + 1)
  {
    var raw := [fed[0] % 64] + fed[1..];
    ValueSnoc(raw, x);
    assert (fed + [x])[1..] == fed[1..] + [x];
    assert raw + [x] == [fed[0] % 64] + (fed[1..] + [x]);
    assert Gathered(fed) == Value(raw) && Gathered(fed + [x]) == Value(raw + [x]);
    ShiftInModulo(Gathered(fed), x);
  }

  lemma GatheredFirst(x: Byte)
    ensures Gathered([x]) == x % 64
  {
    var raw: Bytes := [x % 64];
    assert [[x][0] % 64] + [x][1..] == raw && raw[..0] == [];
    assert Value(raw) == 256 * Value([]) + x % 64;
  }

  /** A whole varint fits 64 bits and is what decoding gives. */
  lemma GatheredWhole(fed: Bytes)
    requires fed != [] && |fed| == LenOf(fed[0])
    ensures Gathered(fed) <= MAX_U64 && DecVarint(fed) == Some((Gathered(fed), |fed|))
  {
    PowerValues();
    ValueBound([fed[0] % 64] + fed[1..]);
    assert fed[1..|fed|] == fed[1..];
  }

  class VarintDecoder {
    var value: nat
    var expectedLen: nat
    var consumed: nat

    /** The bytes fed since the decoder was fresh. */
    ghost var fed: Bytes

    ghost predicate Valid()
      reads this
    {
      && consumed == |fed|
      && (fed != [] ==> expectedLen == LenOf(fed[0]) && value == Gathered(fed) % (MAX_U64 + 1))
    }

    constructor ()
      ensures Valid() && fed == []
    {
      value, expectedLen, consumed := 0, 0, 0;
      fed := [];
    }

    /** With the last byte of a varint what decoding the bytes fed at once gives; before it, and after it
        without a reset, nothing. */
    method Feed(x: Byte) returns (r: Option<(nat, nat)>)
      requires Valid()
      modifies this
      ensures Valid() && fed == old(fed) + [x]
      ensures r == if |fed| == LenOf(fed[0]) then DecVarint(fed) else None
    {
      if consumed == 0 {
        GatheredFirst(x);
        expectedLen := LenOf(x);
        value := x % 64;
      } else {
        GatheredStep(fed, x);
        value := ShiftIn(value, x);
      }
      fed := fed + [x];
      consumed := consumed + 1;
      if consumed == expectedLen {
        GatheredWhole(fed);
        return Some((value, consumed));
      }
      return None;
    }

    method Reset()
      modifies this
      ensures Valid() && fed == []
    {
      value, expectedLen, consumed := 0, 0, 0;
      fed := [];
    }

    method IsFresh() returns (fresh_: bool)
      requires Valid()
      ensures fresh_ <==> fed == []
    {
      return consumed == 0;
    }
  }

  /** Fed one after the other the bytes of v give v with the last of them, and nothing before it. */
  lemma FedVarint(v: nat, n: nat)
    requires v <= MAX_VARINT && 0 < n <= VarintLen(v)
    ensures var fed := EncVarint(v).value[..n];
            fed != [] && (|fed| == LenOf(fed[0]) <==> n == VarintLen(v))
            && (n == VarintLen(v) ==> DecVarint(fed) == Some((v, n)))
  {
    VarintRoundTrip(v, []);
    var b := EncVarint(v).value;
    assert b + [] == b && b[..|b|] == b;
  }
}
