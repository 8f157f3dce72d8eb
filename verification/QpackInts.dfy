/** QPACK prefix integers (section 5.1 of RFC 7541; `h3/qpack.rs`), in 64-bit arithmetic. */
module QpackInts {
  import opened MoqTypes
  import opened Modulo
  import opened HuffmanTree

  /** A value, an error the source returns, or the panic of a slice that ends before it begins. */
  datatype QpackResult<+T> = Ok(value: T) | QpackError | Fault {
    predicate IsFailure() { !Ok? }
    function PropagateFailure<U>(): QpackResult<U>
      requires !Ok?
    {
      if QpackError? then QpackError else Fault
    }
    function Extract(): T
      requires Ok?
    {
      value
    }
  }

  /** The result of a method that counts the bytes it took, for a reader that returns what it left. */
  predicate Tells<T(==)>(r: QpackResult<(T, nat)>, read: QpackResult<(T, Bytes)>, data: Bytes) {
    match read
    case Ok((x, rest)) => r.Ok? && r.value.0 == x && r.value.1 <= |data| && data[r.value.1..] == rest
    case QpackError => r.QpackError?
    case Fault => r.Fault?
  }

  const TWO64: nat := 0x1_0000_0000_0000_0000

  /** Seven bits a byte, lowest first, the high bit meaning that more follow. */
  function Tail(r: nat): Bytes {
    if r < 128 then [r] else [128 + r % 128] + Tail(r / 128)
  }

  function MaxPrefix(bits: nat): nat { Pow2(bits) - 1 }

  /** mask occupies the bits of the first byte above the prefix. */
  predicate MaskFits(bits: nat, mask: nat) {
    1 <= bits <= 8 && mask / Pow2(bits) * Pow2(bits) == mask && mask + Pow2(bits) <= 256
  }

  function EncPrefixInt(v: nat, bits: nat, mask: nat): Bytes
    requires MaskFits(bits, mask)
  {
    if v < MaxPrefix(bits) then [mask + v] else [mask + MaxPrefix(bits)] + Tail(v - MaxPrefix(bits))
  }

  /** What one more byte adds, cut off at 64 bits; and the sum, which wraps. */
  function Shifted(x: Byte, shift: nat): nat { x % 128 * Pow2(shift) % TWO64 }
  function Wrapped(v: nat, x: Byte, shift: nat): nat { (v + Shifted(x, shift)) % TWO64 }

  /** The bytes after a full prefix: the value and what follows. */
  function DecTail(v: nat, shift: nat, b: Bytes): QpackResult<(nat, Bytes)>
    decreases |b|
  {
    if b == [] then QpackError
    else
      var v' := Wrapped(v, b[0], shift);
      if b[0] < 128 then Ok((v', b[1..]))
      else if shift + 7 > 63 then QpackError
      else DecTail(v', shift + 7, b[1..])
  }

  function DecPrefixInt(b: Bytes, bits: nat): (r: QpackResult<(nat, Bytes)>)
    ensures r.Ok? ==> |r.value.1| < |b| <= |r.value.1| + 11
    ensures !r.Fault?
  {
    if b == [] then QpackError
    else
      var v := b[0] % Pow2(bits);
      if v < MaxPrefix(bits) then Ok((v, b[1..]))
      else
        TailShortens(v, 0, b[1..]);
        DecTail(v, 0, b[1..])
  }

  /** A tail is at most ten bytes long. */
  lemma {:induction false} TailShortens(v: nat, shift: nat, b: Bytes)
    requires shift <= 63
    ensures var r := DecTail(v, shift, b);
            !r.Fault? && (r.Ok? ==> |r.value.1| < |b| <= |r.value.1| + (63 - shift) / 7 + 1)
    decreases |b|
  {
    if b != [] && b[0] >= 128 && shift + 7 <= 63 {
      TailShortens(Wrapped(v, b[0], shift), shift + 7, b[1..]);
    }
  }

  /** No sum on the way exceeds 64 bits: nothing wraps. */
  predicate NeverWraps(v: nat, shift: nat, b: Bytes)
    decreases |b|
  {
    b == [] ||
    (b[0] % 128 * Pow2(shift) < TWO64 && v + b[0] % 128 * Pow2(shift) < TWO64
     && (b[0] >= 128 && shift + 7 <= 63 ==> NeverWraps(Wrapped(v, b[0], shift), shift + 7, b[1..])))
  }

  // ---- Powers of two ----

  lemma Pow2Add7(n: nat)
    ensures Pow2(n + 7) == 128 * Pow2(n)
  {
    assert Pow2(n + 7) == 2 * Pow2(n + 6);
    assert Pow2(n + 6) == 2 * Pow2(n + 5);
    assert Pow2(n + 5) == 2 * Pow2(n + 4);
    assert Pow2(n + 4) == 2 * Pow2(n + 3);
    assert Pow2(n + 3) == 2 * Pow2(n + 2);
    assert Pow2(n + 2) == 2 * Pow2(n + 1);
  }

  lemma {:induction false} Pow2Grows(m: nat, n: nat)
    requires m <= n
    ensures Pow2(m) <= Pow2(n)
  {
    if m < n { Pow2Grows(m, n - 1); }
  }

  lemma Pow56()
    ensures Pow2(56) == 0x100_0000_0000_0000
  {
    Pow2Add7(0);
    assert Pow2(7) == 0x80;
    Pow2Add7(7);
    assert Pow2(14) == 0x4000;
    Pow2Add7(14);
    assert Pow2(21) == 0x200000;
    Pow2Add7(21);
    assert Pow2(28) == 0x10000000;
    Pow2Add7(28);
    assert Pow2(35) == 0x800000000;
    Pow2Add7(35);
    assert Pow2(42) == 0x40000000000;
    Pow2Add7(42);
    assert Pow2(49) == 0x2000000000000;
    Pow2Add7(49);
    assert Pow2(56) == 0x100000000000000;
  }

  lemma Pow64()
    ensures Pow2(63) == 0x8000_0000_0000_0000 && Pow2(64) == TWO64
  {
    Pow56();
    Pow2Add7(56);
    assert Pow2(64) == 2 * Pow2(63);
  }

  // ---- Round trip ----

  lemma SplitDigit(r: nat, p: nat)
    ensures r * p == r % 128 * p + r / 128 * (128 * p)
  {
    var q, m := r / 128, r % 128;
    assert r == 128 * q + m;
    assert (128 * q + m) * p == 128 * q * p + m * p;
    assert 128 * q * p == q * (128 * p);
  }

  lemma TimesAtLeast(r: nat, p: nat)
    requires r >= 128
    ensures r * p >= 128 * p
  {
  }

  lemma RoomForMore(r: nat, shift: nat)
    requires r >= 128 && r * Pow2(shift) < TWO64
    ensures shift + 7 <= 63
  {
    Pow2Add7(shift);
    TimesAtLeast(r, Pow2(shift));
    BelowLimit(shift + 7);
  }

  lemma BelowLimit(n: nat)
    requires Pow2(n) < TWO64
    ensures n <= 63
  {
    Pow64();
    if n >= 64 { Pow2Grows(64, n); }
  }

  lemma WrapsNot(v: nat, x: Byte, shift: nat)
    requires v + x % 128 * Pow2(shift) < TWO64
    ensures Wrapped(v, x, shift) == v + x % 128 * Pow2(shift) && x % 128 * Pow2(shift) < TWO64
  {
    TimesNonNegative(x % 128, Pow2(shift));
  }

  lemma TimesNonNegative(a: nat, b: nat)
    ensures a * b >= 0
  {
  }

  /** Reading back the tail of r adds r, shifted, and nothing wraps on the way. */
  lemma {:induction false} TailBack(v: nat, r: nat, shift: nat, rest: Bytes)
    requires v + r * Pow2(shift) < TWO64
    ensures DecTail(v, shift, Tail(r) + rest) == Ok((v + r * Pow2(shift), rest))
    ensures NeverWraps(v, shift, Tail(r) + rest)
    decreases r
  {
    var p := Pow2(shift);
    var b := Tail(r) + rest;
    if r < 128 {
      WrapsNot(v, r, shift);
      assert b[0] == r && b[1..] == rest;
    } else {
      var x: Byte := 128 + r % 128;
      SplitDigit(r, p);
      TimesNonNegative(r / 128, 128 * p);
      RoomForMore(r, shift);
      Pow2Add7(shift);
      WrapsNot(v, x, shift);
      assert b[0] == x && b[1..] == Tail(r / 128) + rest;
      TailBack(v + r % 128 * p, r / 128, shift + 7, rest);
    }
  }

  lemma FirstByteValue(bits: nat, mask: nat, x: nat)
    requires MaskFits(bits, mask) && x < Pow2(bits)
    ensures (mask + x) % Pow2(bits) == x
  {
    var p := Pow2(bits);
    ModOfSum(mask / p, x, p);
  }

  /** Decoding inverts encoding for every 64-bit value and every prefix width, whatever follows. */
  lemma PrefixIntBack(v: nat, bits: nat, mask: nat, rest: Bytes)
    requires v < TWO64 && MaskFits(bits, mask)
    ensures DecPrefixInt(EncPrefixInt(v, bits, mask) + rest, bits) == Ok((v, rest))
  {
    if v < MaxPrefix(bits) {
      FirstByteValue(bits, mask, v);
      assert (EncPrefixInt(v, bits, mask) + rest)[1..] == rest;
    } else {
      LongIntBack(v, bits, mask, rest);
    }
  }

  lemma LongIntBack(v: nat, bits: nat, mask: nat, rest: Bytes)
    requires MaxPrefix(bits) <= v < TWO64 && MaskFits(bits, mask)
    ensures DecPrefixInt(EncPrefixInt(v, bits, mask) + rest, bits) == Ok((v, rest))
  {
    var max := MaxPrefix(bits);
    FirstByteValue(bits, mask, max);
    assert (EncPrefixInt(v, bits, mask) + rest)[1..] == Tail(v - max) + rest;
    assert Pow2(0) == 1 && (v - max) * Pow2(0) == v - max;
    TailBack(max, v - max, 0, rest);
  }

  /** On what the encoder writes, the decoder's 64-bit sums never wrap. */
  lemma EncodedNeverWraps(v: nat, bits: nat, mask: nat, rest: Bytes)
    requires MaxPrefix(bits) <= v < TWO64 && MaskFits(bits, mask)
    ensures NeverWraps(MaxPrefix(bits), 0, (EncPrefixInt(v, bits, mask) + rest)[1..])
  {
    var max := MaxPrefix(bits);
    assert (EncPrefixInt(v, bits, mask) + rest)[1..] == Tail(v - max) + rest;
    assert Pow2(0) == 1 && (v - max) * Pow2(0) == v - max;
    TailBack(max, v - max, 0, rest);
  }

  // ---- Input the encoder does not write ----

  /** The number the seven-bit groups stand for, up to the first byte below 128. */
  function Digits(b: Bytes): nat {
    if b == [] then 0 else b[0] % 128 + (if b[0] < 128 then 0 else 128 * Digits(b[1..]))
  }

  /** The number an encoding stands for, without bound. */
  function Meant(b: Bytes, bits: nat): nat
    requires b != []
  {
    var v := b[0] % Pow2(bits);
    if v < MaxPrefix(bits) then v else v + Digits(b[1..])
  }

  /** A tail adds the number its digits stand for, modulo 2^64. */
  lemma {:induction false} TailModulo(v: nat, shift: nat, b: Bytes)
    requires DecTail(v, shift, b).Ok?
    ensures DecTail(v, shift, b).value.0 == (v + Digits(b) * Pow2(shift)) % TWO64
    decreases |b|
  {
    var x, p := b[0], Pow2(shift);
    if x < 128 {
      ModOfParts(v, x % 128 * p, 0, TWO64);
    } else {
      TailModulo(Wrapped(v, x, shift), shift + 7, b[1..]);
      Pow2Add7(shift);
      TwoDigits(v, x % 128, Digits(b[1..]), p);
    }
  }

  lemma TwoDigits(v: nat, x: nat, d: nat, p: nat)
    ensures ((v + x * p % TWO64) % TWO64 + d * (128 * p)) % TWO64 == (v + (x + 128 * d) * p) % TWO64
  {
    TimesNonNegative(d, 128 * p);
    TimesNonNegative(x, p);
    ModOfParts(v, x * p, d * (128 * p), TWO64);
    assert (x + 128 * d) * p == x * p + d * (128 * p) by { assert (128 * d) * p == d * (128 * p); }
  }

  /** What is decoded is the number meant modulo 2^64: that number itself exactly when it is below 2^64. */
  lemma DecodedIsMeantModulo(b: Bytes, bits: nat)
    requires 1 <= bits <= 8 && DecPrefixInt(b, bits).Ok?
    ensures DecPrefixInt(b, bits).value.0 == Meant(b, bits) % TWO64
    ensures DecPrefixInt(b, bits).value.0 == Meant(b, bits) <==> Meant(b, bits) < TWO64
  {
    Pow2Grows(bits, 8);
    assert Pow2(1) == 2;
    Pow2Add7(1);
    var v := b[0] % Pow2(bits);
    if v == MaxPrefix(bits) {
      TailModulo(v, 0, b[1..]);
      assert Digits(b[1..]) * Pow2(0) == Digits(b[1..]);
    }
  }

  lemma ZeroDigit(v: nat, shift: nat)
    requires v < TWO64
    ensures Wrapped(v, 128, shift) == v
  {
    assert 0 * Pow2(shift) == 0;
  }

  /** The groups of 2^64 - 8: 120, eight times 127, and 1. */
  lemma TailOfMax(b: Bytes)
    requires |b| == 10 && b[0] == 0xF8 && (forall i :: 1 <= i < 9 ==> b[i] == 0xFF) && b[9] == 0x01
    ensures Tail(TWO64 - 8) == b
  {
    OnesTail(b[1..], 8);
    assert (TWO64 - 8) / 128 == 0x1FF_FFFF_FFFF_FFFF && b == [0xF8] + b[1..];
    Pow56();
  }

  lemma {:induction false} OnesTail(b: Bytes, n: nat)
    requires |b| == n + 1 && (forall i :: 0 <= i < n ==> b[i] == 0xFF) && b[n] == 0x01
    ensures Tail(2 * Pow2(7 * n) - 1) == b
    decreases n
  {
    if n > 0 {
      OnesTail(b[1..], n - 1);
      Pow2Add7(7 * (n - 1));
      Pow2Positive(7 * (n - 1));
      FullGroup(2 * Pow2(7 * (n - 1)) - 1);
      assert b == [0xFF] + b[1..];
    }
  }

  lemma FullGroup(r: nat)
    requires r > 0
    ensures Tail(128 * r + 127) == [0xFF] + Tail(r)
  {
  }

  lemma Pow2Positive(n: nat)
    ensures Pow2(n) >= 1
  {
    Pow2Grows(0, n);
  }

  /** Digits of zero leave the value. */
  lemma {:induction false} ZeroDigits(v: nat, shift: nat, b: Bytes, n: nat)
    requires v < TWO64 && shift + 7 * n <= 63 && n < |b| && forall i :: 0 <= i < n ==> b[i] == 128
    ensures DecTail(v, shift, b) == DecTail(v, shift + 7 * n, b[n..])
    decreases n
  {
    if n > 0 {
      ZeroDigit(v, shift);
      assert DecTail(v, shift, b) == DecTail(v, shift + 7, b[1..]);
      ZeroDigits(v, shift + 7, b[1..], n - 1);
      assert b[1..][n - 1..] == b[n..];
    }
  }

  /** Eleven bytes that mean 2^64 + 127 are decoded, without an error, as 127. */
  lemma WrapsOnLongInput(b: Bytes)
    requires b == [127, 128, 128, 128, 128, 128, 128, 128, 128, 128, 2]
    ensures DecPrefixInt(b, 7) == Ok((127, [])) && Meant(b, 7) == TWO64 + 127
  {
    var tail := b[1..];
    Pow2Add7(0);
    NineZerosAndTwo(tail);
  }

  lemma NineZerosAndTwo(tail: Bytes)
    requires |tail| == 10 && tail[9] == 2 && forall i :: 0 <= i < 9 ==> tail[i] == 128
    ensures DecTail(127, 0, tail) == Ok((127, [])) && Digits(tail) == TWO64
  {
    ZeroDigits(127, 0, tail, 9);
    assert tail[9..] == [2];
    TailMeans(tail, 9);
    LostDigit(127);
  }

  /** At a shift of 63 the digit two is shifted out. */
  lemma LostDigit(v: nat)
    requires v < TWO64
    ensures DecTail(v, 63, [2]) == Ok((v, [])) && 2 * Pow2(63) == TWO64
  {
    Pow64();
    assert Wrapped(v, 2, 63) == v && [2][1..] == [];
  }

  lemma {:induction false} TailMeans(b: Bytes, n: nat)
    requires n < |b| && forall i :: 0 <= i < n ==> b[i] == 128
    requires b[n] == 2
    ensures Digits(b) == 2 * Pow2(7 * n)
    decreases n
  {
    if n > 0 {
      TailMeans(b[1..], n - 1);
      Pow2Add7(7 * (n - 1));
    }
  }

  // ---- As the source computes it ----

  lemma TailStep(out: Bytes, r: nat)
    requires r >= 128
    ensures out + Tail(r) == out + [128 + r % 128] + Tail(r / 128)
  {
  }

  method EncodeTail(buf: Bytes, r: nat) returns (out: Bytes)
    ensures out == buf + Tail(r)
  {
    out := buf;
    var remaining := r;
    while remaining >= 128
      invariant out + Tail(remaining) == buf + Tail(r)
    {
      TailStep(out, remaining);
      out := out + [128 + remaining % 128];
      remaining := remaining / 128;
    }
    out := out + [remaining];
  }

  method EncodePrefixInt(buf: Bytes, v: nat, bits: nat, mask: nat) returns (out: Bytes)
    requires MaskFits(bits, mask)
    ensures out == buf + EncPrefixInt(v, bits, mask)
  {
    var maxPrefix := Pow2(bits) - 1;
    if v < maxPrefix {
      return buf + [mask + v];
    }
    out := EncodeTail(buf + [mask + maxPrefix], v - maxPrefix);
    assert buf + [mask + maxPrefix] + Tail(v - maxPrefix) == buf + ([mask + maxPrefix] + Tail(v - maxPrefix));
  }

  /** The value and the number of bytes it takes. */
  method DecodePrefixInt(data: Bytes, bits: nat) returns (r: QpackResult<(nat, nat)>)
    ensures Tells(r, DecPrefixInt(data, bits), data)
  {
    if data == [] {
      return QpackError;
    }
    var maxPrefix := Pow2(bits) - 1;
    var value: nat := data[0] % Pow2(bits);
    var offset := 1;
    if value < maxPrefix {
      return Ok((value, offset));
    }
    var shift := 0;
    while true
      invariant 1 <= offset <= |data| && DecTail(value, shift, data[offset..]) == DecPrefixInt(data, bits)
      decreases |data| - offset
    {
      if offset >= |data| {
        return QpackError;
      }
      var byte := data[offset];
      assert data[offset..][1..] == data[offset + 1..];
      offset := offset + 1;
      value := Wrapped(value, byte, shift);
      if byte < 128 {
        return Ok((value, offset));
      }
      shift := shift + 7;
      if shift > 63 {
        return QpackError;
      }
    }
  }
}
