/** Well-formed UTF-8 (section 4 of RFC 3629): what `String::from_utf8` accepts. */
module Utf8 {
  import opened MoqTypes

  predicate Tail(b: Bytes, i: nat) {
    i < |b| && 0x80 <= b[i] <= 0xBF
  }

  /** Length of the well-formed character at the start of b, or 0. */
  function CharLen(b: Bytes): (n: nat)
    ensures n <= |b|
  {
    if b == [] then 0
    else if b[0] <= 0x7F then 1
    else if 0xC2 <= b[0] <= 0xDF then if Tail(b, 1) then 2 else 0
    else if 0xE0 <= b[0] <= 0xEF then
      if Tail(b, 1) && Tail(b, 2) && (b[0] == 0xE0 ==> b[1] >= 0xA0) && (b[0] == 0xED ==> b[1] <= 0x9F) then 3 else 0
    else if 0xF0 <= b[0] <= 0xF4 then
      if Tail(b, 1) && Tail(b, 2) && Tail(b, 3) && (b[0] == 0xF0 ==> b[1] >= 0x90)
          && (b[0] == 0xF4 ==> b[1] <= 0x8F) then 4 else 0
    else 0
  }

  predicate ValidUtf8(b: Bytes)
    decreases |b|
  {
    b == [] || (CharLen(b) > 0 && ValidUtf8(b[CharLen(b)..]))
  }

  // ---- What it means ----

  /** Unicode scalar values: code points without surrogates. */
  predicate Scalar(c: nat) { c < 0xD800 || 0xE000 <= c < 0x11_0000 }

  /** The bytes of a character: up to four, six bits in each but the first. */
  function Encoded(c: nat): Bytes
    requires Scalar(c)
  {
    if c < 0x80 then [c]
    else if c < 0x800 then [0xC0 + c / 0x40, 0x80 + c % 0x40]
    else if c < 0x1_0000 then [0xE0 + c / 0x1000, 0x80 + c / 0x40 % 0x40, 0x80 + c % 0x40]
    else [0xF0 + c / 0x4_0000, 0x80 + c / 0x1000 % 0x40, 0x80 + c / 0x40 % 0x40, 0x80 + c % 0x40]
  }

  predicate Scalars(cs: seq<nat>) { forall i :: 0 <= i < |cs| ==> Scalar(cs[i]) }

  function Text(cs: seq<nat>): Bytes
    requires Scalars(cs)
  {
    if cs == [] then [] else Encoded(cs[0]) + Text(cs[1..])
  }

  lemma CharOf(c: nat, rest: Bytes)
    requires Scalar(c)
    ensures CharLen(Encoded(c) + rest) == |Encoded(c)|
  {
    var e := Encoded(c);
    var b := e + rest;
    assert forall i :: 0 <= i < |e| ==> b[i] == e[i];
    if 0x800 <= c < 0x1_0000 {
      ThreeBytes(c);
    } else if 0x1_0000 <= c {
      FourBytes(c);
    }
  }

  /** No overlong form, and no surrogate. */
  lemma ThreeBytes(c: nat)
    requires 0x800 <= c < 0x1_0000 && Scalar(c)
    ensures c / 0x1000 == 0 ==> c / 0x40 % 0x40 >= 0x20
    ensures c / 0x1000 == 0xD ==> c / 0x40 % 0x40 < 0x20
  {
    assert c / 0x40 == c / 0x1000 * 0x40 + c / 0x40 % 0x40;
  }

  lemma FourBytes(c: nat)
    requires 0x1_0000 <= c < 0x11_0000
    ensures c / 0x4_0000 <= 4
    ensures c / 0x4_0000 == 0 ==> c / 0x1000 % 0x40 >= 0x10
    ensures c / 0x4_0000 == 4 ==> c / 0x1000 % 0x40 < 0x10
  {
    assert c / 0x1000 == c / 0x4_0000 * 0x40 + c / 0x1000 % 0x40;
  }

  /** The character a well-formed sequence stands for. */
  function First(b: Bytes): nat
    requires CharLen(b) > 0
  {
    var n := CharLen(b);
    var x: nat := b[0];
    if n == 1 then x
    else if n == 2 then (x - 0xC0) * 0x40 + (b[1] - 0x80)
    else if n == 3 then (x - 0xE0) * 0x1000 + ((b[1] as int) - 0x80) * 0x40 + (b[2] - 0x80)
    else (x - 0xF0) * 0x4_0000 + ((b[1] as int) - 0x80) * 0x1000 + ((b[2] as int) - 0x80) * 0x40 + (b[3] - 0x80)
  }

  /** Six bits at a time. */
  lemma Sixes(a: nat, u: nat, v: nat, w: nat)
    requires u < 0x40 && v < 0x40 && w < 0x40
    ensures var c := a * 0x4_0000 + u * 0x1000 + v * 0x40 + w;
            c / 0x4_0000 == a && c / 0x1000 % 0x40 == u && c / 0x40 % 0x40 == v && c % 0x40 == w
            && c / 0x1000 == a * 0x40 + u
  {
    var c := a * 0x4_0000 + u * 0x1000 + v * 0x40 + w;
    assert c / 0x40 == a * 0x1000 + u * 0x40 + v;
    assert c / 0x1000 == a * 0x40 + u;
  }

  lemma FirstIs(b: Bytes)
    requires CharLen(b) > 0
    ensures Scalar(First(b)) && Encoded(First(b)) == b[..CharLen(b)]
  {
    var n := CharLen(b);
    if n == 2 {
      assert First(b) / 0x40 == b[0] as int - 0xC0;
    } else if n == 3 {
      ThirdIs(b);
    } else if n == 4 {
      FourthIs(b);
    }
  }

  lemma ThirdIs(b: Bytes)
    requires CharLen(b) == 3
    ensures Scalar(First(b)) && Encoded(First(b)) == b[..3]
  {
    var x: nat, y: nat, z: nat := b[0] as int - 0xE0, b[1] as int - 0x80, b[2] as int - 0x80;
    Sixes(0, x, y, z);
    assert First(b) == x * 0x1000 + y * 0x40 + z;
  }

  lemma FourthIs(b: Bytes)
    requires CharLen(b) == 4
    ensures Scalar(First(b)) && Encoded(First(b)) == b[..4]
  {
    var x: nat, y: nat := b[0] as int - 0xF0, b[1] as int - 0x80;
    var z: nat, t: nat := b[2] as int - 0x80, b[3] as int - 0x80;
    Sixes(x, y, z, t);
    assert First(b) == x * 0x4_0000 + y * 0x1000 + z * 0x40 + t;
  }

  lemma {:induction false} TextIsValid(cs: seq<nat>)
    requires Scalars(cs)
    ensures ValidUtf8(Text(cs))
  {
    if cs != [] {
      CharOf(cs[0], Text(cs[1..]));
      TextIsValid(cs[1..]);
      var b := Text(cs);
      assert b[|Encoded(cs[0])|..] == Text(cs[1..]);
    }
  }

  lemma {:induction false} ValidIsText(b: Bytes) returns (cs: seq<nat>)
    requires ValidUtf8(b)
    ensures Scalars(cs) && Text(cs) == b
    decreases |b|
  {
    cs := [];
    if b != [] {
      var n := CharLen(b);
      FirstIs(b);
      var more := ValidIsText(b[n..]);
      cs := [First(b)] + more;
      assert cs[1..] == more && b == b[..n] + b[n..];
    }
  }

  /** Valid is exactly what characters are encoded as, one after the other. */
  lemma ValidIff(b: Bytes)
    ensures ValidUtf8(b) <==> exists cs :: Scalars(cs) && Text(cs) == b
  {
    if ValidUtf8(b) { var cs := ValidIsText(b); }
    if cs :| Scalars(cs) && Text(cs) == b { TextIsValid(cs); }
  }
}
