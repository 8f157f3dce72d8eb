/** Byte strings written out: the shortest form a writer uses, and every form a reader takes. */
module WireForms {
  import opened MoqTypes
  import opened Varint
  import opened CodecErrors

  // ---- What is written ----

  /** The shortest QUIC varint. */
  function Int(n: nat): Result<Bytes> {
    if n < 0x40 then Ok([n])
    else if n < 0x4000 then Ok([0x40 + n / 0x100, n % 0x100])
    else if n < 0x4000_0000 then Ok([0x80 + n / 0x100_0000, n / 0x1_0000 % 0x100, n / 0x100 % 0x100, n % 0x100])
    else if n < 0x4000_0000_0000_0000 then
      Ok([0xC0 + n / 0x100_0000_0000_0000, n / 0x1_0000_0000_0000 % 0x100, n / 0x100_0000_0000 % 0x100,
          n / 0x1_0000_0000 % 0x100, n / 0x100_0000 % 0x100, n / 0x1_0000 % 0x100, n / 0x100 % 0x100, n % 0x100])
    else Err(VarintOverflow)
  }

  /** One after the other; the first that cannot be written decides. */
  function Cat(parts: seq<Result<Bytes>>): Result<Bytes> {
    if parts == [] then Ok([])
    else if parts[0].Err? then parts[0]
    else if Cat(parts[1..]).Err? then Cat(parts[1..])
    else Ok(parts[0].value + Cat(parts[1..]).value)
  }

  function Str(b: Bytes): Result<Bytes> { Cat([Int(|b|), Ok(b)]) }

  lemma {:induction false} CatAppend(xs: seq<Result<Bytes>>, ys: seq<Result<Bytes>>)
    ensures Cat(xs + ys) == Cat([Cat(xs), Cat(ys)])
    decreases |xs|
  {
    CatTwo(Cat(xs), Cat(ys));
    if xs == [] {
      assert xs + ys == ys;
      if Cat(ys).Ok? { assert [] + Cat(ys).value == Cat(ys).value; }
    } else {
      assert (xs + ys)[1..] == xs[1..] + ys;
      CatAppend(xs[1..], ys);
      CatTwo(Cat(xs[1..]), Cat(ys));
      if xs[0].Ok? && Cat(xs[1..]).Ok? && Cat(ys).Ok? {
        assert xs[0].value + (Cat(xs[1..]).value + Cat(ys).value) == xs[0].value + Cat(xs[1..]).value + Cat(ys).value;
      }
    }
  }

  lemma CatTwo(a: Result<Bytes>, b: Result<Bytes>)
    ensures Cat([a, b]) == if a.Err? then a else if b.Err? then b else Ok(a.value + b.value)
  {
    assert [a, b][1..] == [b];
    CatOne(b);
  }

  lemma CatOne(a: Result<Bytes>)
    ensures Cat([a]) == a
  {
    assert [a][1..] == [];
    if a.Ok? { assert a.value + [] == a.value; }
  }

  lemma IntIs(n: nat)
    ensures PutVarint(n) == Int(n)
  {
    if n < 0x40 { OneByte(n); }
    else if n < 0x4000 { TwoBytes(n); }
    else if n < 0x4000_0000 { FourBytes(n); }
    else if n < 0x4000_0000_0000_0000 { EightBytes(n); }
  }

  lemma StrIs(b: Bytes)
    ensures PutPrefixed(b) == Str(b)
  {
    IntIs(|b|);
    CatTwo(Int(|b|), Ok(b));
  }

  // ---- What is read ----

  /** A set of byte strings. */
  type Form = Bytes -> bool

  /** n, in one, two, four or eight bytes, with the length in the two high bits. */
  predicate IsInt(b: Bytes, n: nat) {
    || (n < 0x40 && b == [n])
    || (n < 0x4000 && b == [0x40 + n / 0x100, n % 0x100])
    || (n < 0x4000_0000 && b == [0x80 + n / 0x100_0000, n / 0x1_0000 % 0x100, n / 0x100 % 0x100, n % 0x100])
    || (n < 0x4000_0000_0000_0000
        && b == [0xC0 + n / 0x100_0000_0000_0000, n / 0x1_0000_0000_0000 % 0x100, n / 0x100_0000_0000 % 0x100,
                 n / 0x1_0000_0000 % 0x100, n / 0x100_0000 % 0x100, n / 0x1_0000 % 0x100, n / 0x100 % 0x100, n % 0x100])
  }

  /** The tagged big-endian form of n on k bytes. */
  predicate Tagged(b: Bytes, n: nat, k: nat)
    requires IsLen(k)
  {
    n < Capacity(k) && |b| == k && b == [(BigEndian(n, k)[0] + Tag(k)) % 256] + BigEndian(n, k)[1..]
  }

  lemma TaggedIs(b: Bytes, n: nat)
    ensures IsInt(b, n) <==> Tagged(b, n, 1) || Tagged(b, n, 2) || Tagged(b, n, 4) || Tagged(b, n, 8)
  {
    if n < 0x40 { OneTagged(b, n); }
    if n < 0x4000 { TwoTagged(b, n); }
    if n < 0x4000_0000 { FourTagged(b, n); }
    if n < 0x4000_0000_0000_0000 { EightTagged(b, n); }
  }

  lemma OneTagged(b: Bytes, n: nat)
    requires n < 0x40
    ensures Tagged(b, n, 1) <==> b == [n]
  {
    assert BigEndian(n, 1) == [n];
  }

  lemma TwoTagged(b: Bytes, n: nat)
    requires n < 0x4000
    ensures Tagged(b, n, 2) <==> b == [0x40 + n / 0x100, n % 0x100]
  {
    BigEndianBytes2(n);
  }

  lemma FourTagged(b: Bytes, n: nat)
    requires n < 0x4000_0000
    ensures Tagged(b, n, 4)
       <==> b == [0x80 + n / 0x100_0000, n / 0x1_0000 % 0x100, n / 0x100 % 0x100, n % 0x100]
  {
    BigEndianBytes4(n);
  }

  lemma EightTagged(b: Bytes, n: nat)
    requires n < 0x4000_0000_0000_0000
    ensures Tagged(b, n, 8)
       <==> b == [0xC0 + n / 0x100_0000_0000_0000, n / 0x1_0000_0000_0000 % 0x100, n / 0x100_0000_0000 % 0x100,
                  n / 0x1_0000_0000 % 0x100, n / 0x100_0000 % 0x100, n / 0x1_0000 % 0x100, n / 0x100 % 0x100, n % 0x100]
  {
    BigEndianBytes8(n);
    EightJoined(BigEndian(n, 8));
  }

  lemma EightJoined(raw: Bytes)
    requires |raw| == 8 && raw[0] < 64
    ensures [(raw[0] + 192) % 256] + raw[1..]
         == [0xC0 + raw[0], raw[1], raw[2], raw[3], raw[4], raw[5], raw[6], raw[7]]
  {
  }

  lemma TaggedReads(b: Bytes, n: nat, k: nat, rest: Bytes)
    requires IsLen(k) && Tagged(b, n, k)
    ensures DecVarint(b + rest) == Some((n, k))
  {
    FirstByteFits(n, k);
    var raw := BigEndian(n, k);
    LenOfTagged(raw[0], k);
    assert (b + rest)[0] == raw[0] + Tag(k) && (b + rest)[1..k] == raw[1..];
    assert [raw[0]] + raw[1..] == raw;
  }

  /** Every complete varint is an integer in one of its forms. */
  lemma ReadTagged(b: Bytes)
    requires DecVarint(b).Some?
    ensures var (n, k) := DecVarint(b).value; IsLen(k) && k <= |b| && Tagged(b[..k], n, k)
  {
    var k := LenOf(b[0]);
    TagOfLen(b[0]);
    var raw := [b[0] % 64] + b[1..k];
    FirstByteSmall(raw);
    BigEndianOfValue(raw);
    assert b[..k] == [b[0]] + b[1..k];
  }

  lemma IntReads(b: Bytes, n: nat, rest: Bytes)
    requires IsInt(b, n)
    ensures GetVarint(b + rest) == Ok((n, rest))
  {
    TaggedIs(b, n);
    TaggedReads(b, n, |b|, rest);
    assert (b + rest)[|b|..] == rest;
  }

  /** What a reader has taken of b if it leaves rest. */
  function Taken(b: Bytes, rest: Bytes): Bytes { if |rest| <= |b| then b[..|b| - |rest|] else b }

  predicate Splits(b: Bytes, rest: Bytes) { b == Taken(b, rest) + rest }

  lemma ReadInt(b: Bytes)
    requires GetVarint(b).Ok?
    ensures var (n, rest) := GetVarint(b).value; Splits(b, rest) && IsInt(Taken(b, rest), n)
  {
    VarintMinimal(b);
    ReadTagged(b);
    var (n, k) := DecVarint(b).value;
    TaggedIs(b[..k], n);
    assert b == b[..k] + b[k..];
  }

  // ---- Strings, and one form after the other ----

  predicate IsStr(b: Bytes, x: Bytes) {
    |x| <= |b| && b[|b| - |x|..] == x && IsInt(b[..|b| - |x|], |x|)
  }

  function IntL(n: nat): Form { (b: Bytes) => IsInt(b, n) }
  function StrL(x: Bytes): Form { (b: Bytes) => IsStr(b, x) }

  /** One form after the other, and nothing more. */
  ghost predicate Is(forms: seq<Form>, b: Bytes) {
    if forms == [] then b == []
    else exists k: nat :: k <= |b| && forms[0](b[..k]) && Is(forms[1..], b[k..])
  }

  lemma StrReads(b: Bytes, x: Bytes, rest: Bytes)
    requires IsStr(b, x)
    ensures GetPrefixed(b + rest) == Ok((x, rest))
  {
    var head := b[..|b| - |x|];
    assert b + rest == head + (x + rest);
    IntReads(head, |x|, x + rest);
    BytesBack(x, rest);
  }

  lemma ReadStr(b: Bytes)
    requires GetPrefixed(b).Ok?
    ensures var (x, rest) := GetPrefixed(b).value; Splits(b, rest) && IsStr(Taken(b, rest), x)
  {
    ReadInt(b);
    var (n, more) := GetVarint(b).value;
    var (x, rest) := GetPrefixed(b).value;
    assert more == x + rest;
    assert b == Taken(b, more) + x + rest;
    assert Taken(b, rest) == Taken(b, more) + x;
  }

  /** A form, and what follows it. */
  lemma IsCons(form: Form, forms: seq<Form>, p: Bytes, q: Bytes)
    requires form(p) && Is(forms, q)
    ensures Is([form] + forms, p + q)
  {
    var all := [form] + forms;
    assert all[1..] == forms && (p + q)[..|p|] == p && (p + q)[|p|..] == q;
  }

  /** What two readers take one after the other. */
  lemma TakenBoth(b: Bytes, more: Bytes, rest: Bytes)
    requires Splits(b, more) && Splits(more, rest)
    ensures Splits(b, rest) && Taken(b, rest) == Taken(b, more) + Taken(more, rest)
  {
  }

  /** Where the first form ends. */
  lemma IsFirst(form: Form, forms: seq<Form>, p: Bytes) returns (k: nat)
    requires Is([form] + forms, p)
    ensures k <= |p| && form(p[..k]) && Is(forms, p[k..])
  {
    var all := [form] + forms;
    assert all[1..] == forms;
    k :| k <= |p| && all[0](p[..k]) && Is(all[1..], p[k..]);
  }

  lemma IsFirstOfTwo(f: Form, g: Form, p: Bytes) returns (k: nat)
    requires Is([f, g], p)
    ensures k <= |p| && f(p[..k]) && g(p[k..])
  {
    assert [f, g] == [f] + [g];
    k := IsFirst(f, [g], p);
    IsOne(g, p[k..]);
  }

  /** An integer at the head. */
  lemma IntHead(p: Bytes, k: nat, n: nat)
    requires k <= |p| && IsInt(p[..k], n)
    ensures GetVarint(p) == Ok((n, p[k..]))
  {
    assert p == p[..k] + p[k..];
    IntReads(p[..k], n, p[k..]);
  }

  /** An integer at the head, and what follows it. */
  lemma IntFirst(p: Bytes, k: nat, n: nat, rest: Bytes)
    requires k <= |p| && IsInt(p[..k], n)
    ensures GetVarint(p + rest) == Ok((n, p[k..] + rest))
  {
    assert p + rest == p[..k] + (p[k..] + rest);
    IntReads(p[..k], n, p[k..] + rest);
  }

  lemma IsOne(g: Form, b: Bytes)
    ensures Is([g], b) <==> g(b)
  {
    assert [g][1..] == [] && b[..|b|] == b && b[|b|..] == [];
    if Is([g], b) {
      var k: nat :| k <= |b| && g(b[..k]) && Is([], b[k..]);
      assert b[..k] == b;
    }
  }

  lemma IsBoth(f: Form, g: Form, p: Bytes, q: Bytes)
    requires f(p) && g(q)
    ensures Is([f, g], p + q)
  {
    IsOne(g, q);
    IsCons(f, [g], p, q);
    assert [f] + [g] == [f, g];
  }
}
