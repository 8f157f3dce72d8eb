/** QUIC variable-length integers (section 16 of RFC 9000), as both crates read and write them. */
module Varint {
  import opened MoqTypes

  function Pow256(n: nat): nat {
    if n == 0 then 1 else 256 * Pow256(n - 1)
  }

  /** The n low bytes of v, most significant first. */
  function BigEndian(v: nat, n: nat): (b: Bytes)
    ensures |b| == n
  {
    if n == 0 then [] else BigEndian(v / 256, n - 1) + [v % 256]
  }

  /** The number a big-endian byte string stands for. */
  function Value(b: Bytes): nat {
    if b == [] then 0 else 256 * Value(b[..|b|-1]) + b[|b|-1]
  }

  function VarintLen(v: nat): nat {
    if v <= 63 then 1 else if v <= 16383 then 2 else if v <= 1_073_741_823 then 4 else 8
  }

  /** The first byte carries the length in its two high bits. */
  function LenOf(first: Byte): nat {
    if first < 64 then 1 else if first < 128 then 2 else if first < 192 then 4 else 8
  }

  function Tag(n: nat): nat {
    if n == 1 then 0 else if n == 2 then 64 else if n == 4 then 128 else 192
  }

  /** Values that fit a varint of n bytes. */
  function Capacity(n: nat): nat {
    if n == 1 then 64 else if n == 2 then 16384 else if n == 4 then 1_073_741_824 else 0x4000_0000_0000_0000
  }

  /** None: the value does not fit. */
  function EncVarint(v: nat): Option<Bytes> {
    if v > MAX_VARINT then None
    else
      var n := VarintLen(v);
      FirstByteFits(v, n);
      var raw := BigEndian(v, n);
      Some([raw[0] + Tag(n)] + raw[1..])
  }

  /** The value and its length; None: the buffer ends first. */
  function DecVarint(b: Bytes): Option<(nat, nat)> {
    if b == [] || |b| < LenOf(b[0]) then None
    else Some((Value([b[0] % 64] + b[1..LenOf(b[0])]), LenOf(b[0])))
  }

  // ---- Big-endian numbers ----

  lemma {:induction false} ValueBound(b: Bytes)
    ensures Value(b) < Pow256(|b|)
  {
    if b != [] { ValueBound(b[..|b|-1]); }
  }

  lemma {:induction false} ValueOfBigEndian(v: nat, n: nat)
    requires v < Pow256(n)
    ensures Value(BigEndian(v, n)) == v
  {
    if n != 0 {
      ValueOfBigEndian(v / 256, n - 1);
      assert BigEndian(v, n)[..n - 1] == BigEndian(v / 256, n - 1);
    }
  }

  lemma {:induction false} BigEndianOfValue(b: Bytes)
    ensures BigEndian(Value(b), |b|) == b
  {
    if b != [] {
      BigEndianOfValue(b[..|b|-1]);
      assert Value(b) / 256 == Value(b[..|b|-1]) && Value(b) % 256 == b[|b|-1];
      assert b[..|b|-1] + [b[|b|-1]] == b;
    }
  }

  /** The first byte weighs as much as all the others can hold. */
  lemma {:induction false} ValueCons(b: Bytes)
    requires b != []
    ensures Value(b) == b[0] * Pow256(|b| - 1) + Value(b[1..])
  {
    if |b| > 1 {
      var n := |b| - 1;
      ValueCons(b[..n]);
      assert b[..n][1..] == b[1..][..n - 1];
      assert b[1..][n - 1] == b[n];
      assert 256 * (b[0] * Pow256(n - 1)) == b[0] * Pow256(n);
    } else {
      assert b[..0] == [] && b[1..] == [];
    }
  }

  lemma PowerValues()
    ensures Pow256(0) == 1 && Pow256(1) == 256 && Pow256(2) == 65536 && Pow256(3) == 0x100_0000
            && Pow256(4) == 0x1_0000_0000
    ensures Pow256(7) == 0x100_0000_0000_0000 && Pow256(8) == 0x1_0000_0000_0000_0000
  {
    assert Pow256(5) == 256 * Pow256(4);
    assert Pow256(6) == 256 * Pow256(5);
    assert Pow256(7) == 256 * Pow256(6);
    assert Pow256(8) == 256 * Pow256(7);
  }

  predicate IsLen(n: nat) { n == 1 || n == 2 || n == 4 || n == 8 }

  /** A value within capacity leaves the two high bits of the first byte free, and no other value does. */
  lemma FirstByteSmall(b: Bytes)
    requires IsLen(|b|)
    ensures b[0] < 64 <==> Value(b) < Capacity(|b|)
  {
    PowerValues();
    ValueCons(b);
    ValueBound(b[1..]);
  }

  lemma FirstByteFits(v: nat, n: nat)
    requires IsLen(n) && v < Capacity(n)
    ensures BigEndian(v, n)[0] < 64 && Value(BigEndian(v, n)) == v
  {
    PowerValues();
    ValueOfBigEndian(v, n);
    FirstByteSmall(BigEndian(v, n));
  }

  // ---- The codec ----

  lemma LenOfTagged(x: Byte, n: nat)
    requires IsLen(n) && x < 64
    ensures LenOf(x + Tag(n)) == n && (x + Tag(n)) % 64 == x
  {
  }

  lemma TagOfLen(x: Byte)
    ensures IsLen(LenOf(x)) && x == x % 64 + Tag(LenOf(x))
  {
  }

  /** Decoding inverts encoding, whatever follows. */
  lemma VarintRoundTrip(v: nat, rest: Bytes)
    requires v <= MAX_VARINT
    ensures var b := EncVarint(v).value; |b| == VarintLen(v) && DecVarint(b + rest) == Some((v, |b|))
  {
    var n := VarintLen(v);
    FirstByteFits(v, n);
    var raw := BigEndian(v, n);
    var b := EncVarint(v).value;
    LenOfTagged(raw[0], n);
    assert (b + rest)[0] == raw[0] + Tag(n);
    assert (b + rest)[1..n] == raw[1..];
    assert [raw[0]] + raw[1..] == raw;
  }

  /** A decoded value fits a varint, and its own encoding is no longer than the bytes it came from. */
  lemma VarintMinimal(b: Bytes)
    requires DecVarint(b).Some?
    ensures var (v, n) := DecVarint(b).value; 1 <= n <= |b| && v <= MAX_VARINT && VarintLen(v) <= n
  {
    var n := LenOf(b[0]);
    TagOfLen(b[0]);
    var raw := [b[0] % 64] + b[1..n];
    FirstByteSmall(raw);
  }

  /** The shortest form is the only one of its length: decoding is injective on it. */
  lemma VarintUnique(b: Bytes)
    requires DecVarint(b).Some? && VarintLen(DecVarint(b).value.0) == DecVarint(b).value.1
    ensures EncVarint(DecVarint(b).value.0) == Some(b[..DecVarint(b).value.1])
  {
    VarintMinimal(b);
    var (v, n) := DecVarint(b).value;
    TagOfLen(b[0]);
    var raw := [b[0] % 64] + b[1..n];
    BigEndianOfValue(raw);
    assert BigEndian(v, n) == raw && raw[0] == b[0] % 64 && raw[1..] == b[1..n];
    assert EncVarint(v) == Some([raw[0] + Tag(n)] + raw[1..]);
    assert b[..n] == [b[0]] + b[1..n];
  }

  /** More bytes change nothing once a varint is complete. */
  lemma VarintStable(b: Bytes, rest: Bytes)
    requires DecVarint(b).Some?
    ensures DecVarint(b + rest) == DecVarint(b)
  {
    assert (b + rest)[1..LenOf(b[0])] == b[1..LenOf(b[0])];
  }

  /** A cut-off varint is always too short. */
  lemma VarintPrefix(v: nat, k: nat)
    requires v <= MAX_VARINT && k < |EncVarint(v).value|
    ensures DecVarint(EncVarint(v).value[..k]).None?
  {
    var n := VarintLen(v);
    FirstByteFits(v, n);
    LenOfTagged(BigEndian(v, n)[0], n);
  }

  // ---- As the source computes it ----

  /** Read a varint byte by byte. */
  method DecodeVarint(buf: Bytes) returns (r: Option<(nat, nat)>)
    ensures r == DecVarint(buf)
  {
    if buf == [] {
      return None;
    }
    var len := LenOf(buf[0]);
    if |buf| < len {
      return None;
    }
    var v: nat := buf[0] % 64;
    for i := 1 to len
      invariant v == Value([buf[0] % 64] + buf[1..i])
    {
      ghost var sofar := [buf[0] % 64] + buf[1..i + 1];
      assert sofar[..|sofar| - 1] == [buf[0] % 64] + buf[1..i];
      v := 256 * v + buf[i];
    }
    return Some((v, len));
  }

  /** One more shift by eight bits. */
  lemma Shifts(v: nat)
    ensures v / 0x100 / 0x100 == v / 0x1_0000
    ensures v / 0x1_0000 / 0x100 == v / 0x100_0000
    ensures v / 0x100_0000 / 0x100 == v / 0x1_0000_0000
    ensures v / 0x1_0000_0000 / 0x100 == v / 0x100_0000_0000
    ensures v / 0x100_0000_0000 / 0x100 == v / 0x1_0000_0000_0000
    ensures v / 0x1_0000_0000_0000 / 0x100 == v / 0x100_0000_0000_0000
  {
  }

  lemma ValueSnoc(b: Bytes, x: Byte)
    ensures Value(b + [x]) == 256 * Value(b) + x
  {
    assert (b + [x])[..|b|] == b;
  }

  /** The bytes of v, cut out by shifting. */
  lemma BigEndianBytes2(v: nat)
    requires v < 0x1_0000
    ensures BigEndian(v, 2) == [v / 0x100, v % 0x100]
  {
    var b1: Bytes := [v / 0x100];
    assert b1[..0] == [];
    ValueSnoc(b1, v % 0x100);
    BigEndianOfValue(b1 + [v % 0x100]);
  }

  lemma BigEndianBytes4(v: nat)
    requires v < 0x1_0000_0000
    ensures BigEndian(v, 4) == [v / 0x100_0000, v / 0x1_0000 % 0x100, v / 0x100 % 0x100, v % 0x100]
  {
    Shifts(v);
    var b1: Bytes := [v / 0x100_0000];
    var b2: Bytes := b1 + [v / 0x1_0000 % 0x100];
    var b3: Bytes := b2 + [v / 0x100 % 0x100];
    assert b1[..0] == [];
    ValueSnoc(b1, v / 0x1_0000 % 0x100);
    ValueSnoc(b2, v / 0x100 % 0x100);
    ValueSnoc(b3, v % 0x100);
    BigEndianOfValue(b3 + [v % 0x100]);
  }

  /** Four bytes more, cut out by shifting. */
  lemma BigEndianTail4(v: nat, n: nat)
    ensures BigEndian(v, n + 4)
         == BigEndian(v / 0x1_0000_0000, n)
            + [v / 0x100_0000 % 0x100, v / 0x1_0000 % 0x100, v / 0x100 % 0x100, v % 0x100]
  {
    Shifts(v);
    assert BigEndian(v / 0x100_0000, n + 1) == BigEndian(v / 0x1_0000_0000, n) + [v / 0x100_0000 % 0x100];
    assert BigEndian(v / 0x1_0000, n + 2) == BigEndian(v / 0x100_0000, n + 1) + [v / 0x1_0000 % 0x100];
    assert BigEndian(v / 0x100, n + 3) == BigEndian(v / 0x1_0000, n + 2) + [v / 0x100 % 0x100];
    assert BigEndian(v, n + 4) == BigEndian(v / 0x100, n + 3) + [v % 0x100];
  }

  lemma BigEndianBytes8(v: nat)
    requires v < 0x1_0000_0000_0000_0000
    ensures BigEndian(v, 8)
         == [v / 0x100_0000_0000_0000, v / 0x1_0000_0000_0000 % 0x100, v / 0x100_0000_0000 % 0x100,
             v / 0x1_0000_0000 % 0x100,
             v / 0x100_0000 % 0x100, v / 0x1_0000 % 0x100, v / 0x100 % 0x100, v % 0x100]
  {
    var high := v / 0x1_0000_0000;
    BigEndianTail4(v, 4);
    BigEndianBytes4(high);
    assert high / 0x100_0000 == v / 0x100_0000_0000_0000;
    assert high / 0x1_0000 == v / 0x1_0000_0000_0000;
    assert high / 0x100 == v / 0x100_0000_0000;
  }

  lemma OneByte(v: nat)
    requires v <= 63
    ensures EncVarint(v) == Some([v])
  {
    var raw := BigEndian(v, 1);
    assert raw == [v] && [raw[0] + 0] + raw[1..] == [v];
  }

  lemma TwoBytes(v: nat)
    requires 63 < v <= 16383
    ensures EncVarint(v) == Some([0x40 + v / 0x100, v % 0x100])
  {
    FirstByteFits(v, 2);
    BigEndianBytes2(v);
    var raw := BigEndian(v, 2);
    assert [raw[0] + 0x40] + raw[1..] == [0x40 + v / 0x100, v % 0x100];
  }

  lemma FourBytes(v: nat)
    requires 16383 < v <= 1_073_741_823
    ensures EncVarint(v) == Some([0x80 + v / 0x100_0000, v / 0x1_0000 % 0x100, v / 0x100 % 0x100, v % 0x100])
  {
    FirstByteFits(v, 4);
    BigEndianBytes4(v);
    var raw := BigEndian(v, 4);
    assert [raw[0] + 0x80] + raw[1..] == [0x80 + v / 0x100_0000, v / 0x1_0000 % 0x100, v / 0x100 % 0x100, v % 0x100];
  }

  lemma EightBytes(v: nat)
    requires 1_073_741_823 < v <= MAX_VARINT
    ensures EncVarint(v)
         == Some([0xc0 + v / 0x100_0000_0000_0000, v / 0x1_0000_0000_0000 % 0x100, v / 0x100_0000_0000 % 0x100,
                  v / 0x1_0000_0000 % 0x100, v / 0x100_0000 % 0x100, v / 0x1_0000 % 0x100, v / 0x100 % 0x100,
                  v % 0x100])
  {
    FirstByteFits(v, 8);
    BigEndianBytes8(v);
    var raw := BigEndian(v, 8);
    assert [raw[0] + 0xc0] + raw[1..]
        == [0xc0 + v / 0x100_0000_0000_0000, v / 0x1_0000_0000_0000 % 0x100, v / 0x100_0000_0000 % 0x100,
            v / 0x1_0000_0000 % 0x100, v / 0x100_0000 % 0x100, v / 0x1_0000 % 0x100, v / 0x100 % 0x100, v % 0x100];
  }

  /** Write a varint byte by byte. */
  method EncodeVarint(buf: Bytes, v: nat) returns (ok: bool, out: Bytes)
    ensures ok <==> v <= MAX_VARINT
    ensures out == if ok then buf + EncVarint(v).value else buf
  {
    if v > MAX_VARINT {
      return false, buf;
    }
    var n := VarintLen(v);
    if n == 1 {
      OneByte(v);
      return true, buf + [v];
    } else if n == 2 {
      TwoBytes(v);
      return true, buf + [0x40 + v / 0x100, v % 0x100];
    } else if n == 4 {
      FourBytes(v);
      return true, buf + [0x80 + v / 0x100_0000, v / 0x1_0000 % 0x100, v / 0x100 % 0x100, v % 0x100];
    } else {
      EightBytes(v);
      return true, buf + [0xc0 + v / 0x100_0000_0000_0000, v / 0x1_0000_0000_0000 % 0x100, v / 0x100_0000_0000 % 0x100,
                          v / 0x1_0000_0000 % 0x100, v / 0x100_0000 % 0x100, v / 0x1_0000 % 0x100, v / 0x100 % 0x100,
                          v % 0x100];
    }
  }
}
