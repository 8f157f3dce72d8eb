/** QPACK header blocks (section 4.5 of RFC 9204; `h3/qpack.rs`), for any static table and any prefix-free
    Huffman table. */
module QpackHeaders {
  import opened MoqTypes
  import opened Modulo
  import opened Utf8
  import opened HuffmanCodes
  import opened HuffmanTree
  import opened QpackInts

  type Header = (Bytes, Bytes)

  datatype Tables = Tables(static_: seq<Header>, huffman: CodeTable)

  predicate Texts(h: Header) { ValidUtf8(h.0) && ValidUtf8(h.1) }

  ghost predicate TablesOk(t: Tables) {
    PrefixFree(t.huffman) && forall i :: 0 <= i < |t.static_| ==> Texts(t.static_[i])
  }

  // ---- Encoding: literal names and values, without Huffman coding ----

  function EncLine(h: Header): Bytes {
    LiteralMasks();
    EncPrefixInt(|h.0|, 3, 0x20) + h.0 + EncPrefixInt(|h.1|, 7, 0x00) + h.1
  }

  function EncLines(hs: seq<Header>): Bytes {
    if hs == [] then [] else EncLine(hs[0]) + EncLines(hs[1..])
  }

  function EncBlock(hs: seq<Header>): Bytes { [0, 0] + EncLines(hs) }

  lemma LiteralMasks()
    ensures MaskFits(3, 0x20) && MaskFits(7, 0x00) && MaskFits(7, 0x80) && Pow2(3) == 8 && Pow2(7) == 128
            && Pow2(8) == 256
  {
    assert Pow2(3) == 2 * Pow2(2);
    assert Pow2(5) == 2 * Pow2(4);
    assert Pow2(7) == 2 * Pow2(6);
  }

  // ---- Decoding ----

  /** The bytes of a string: its end is a 64-bit sum, and they are the slice from the end of the length to there. */
  function RawString(b: Bytes, bits: nat): (r: QpackResult<(Bytes, Bytes)>)
    ensures r.Ok? ==> |r.value.1| < |b|
  {
    var prefix := DecPrefixInt(b, bits);
    if !prefix.Ok? then QpackError
    else
      var (len, rest) := prefix.value;
      var n := |b| - |rest|;
      var end := (n + len) % TWO64;
      if |b| < end then QpackError
      else if end < n then Fault
      else Ok((rest[..end - n], rest[end - n..]))
  }

  ghost function TextOf(t: Tables, huffman: bool, raw: Bytes): Option<Bytes>
    requires TablesOk(t)
  {
    var text := if huffman then Decode(t.huffman, BytesToBits(raw)) else Some(raw);
    if text.Some? && ValidUtf8(text.value) then text else None
  }

  ghost function DecString(t: Tables, b: Bytes, bits: nat): (r: QpackResult<(Bytes, Bytes)>)
    requires TablesOk(t)
    ensures r.Ok? ==> |r.value.1| < |b| && ValidUtf8(r.value.0)
  {
    if b == [] then QpackError
    else
      var (raw, rest) :- RawString(b, bits);
      var text := TextOf(t, b[0] / Pow2(bits) % 2 == 1, raw);
      if text.None? then QpackError else Ok((text.value, rest))
  }

  ghost function DecLine(t: Tables, b: Bytes): (r: QpackResult<(Header, Bytes)>)
    requires TablesOk(t) && b != []
    ensures r.Ok? ==> |r.value.1| < |b| && Texts(r.value.0)
  {
    if b[0] >= 128 then
      var (index, rest) :- DecPrefixInt(b, 6);
      if b[0] % 128 >= 64 && index < |t.static_| then Ok((t.static_[index], rest)) else QpackError
    else if b[0] >= 64 then
      var (index, rest) :- DecPrefixInt(b, 4);
      if b[0] / 16 % 2 == 1 && index < |t.static_| then
        var (value, after) :- DecString(t, rest, 7);
        Ok(((t.static_[index].0, value), after))
      else QpackError
    else if b[0] >= 32 then
      var (name, rest) :- DecString(t, b, 3);
      var (value, after) :- DecString(t, rest, 7);
      Ok(((name, value), after))
    else QpackError
  }

  ghost function DecLines(t: Tables, b: Bytes): (r: QpackResult<seq<Header>>)
    requires TablesOk(t)
    ensures r.Ok? ==> forall i :: 0 <= i < |r.value| ==> Texts(r.value[i])
    decreases |b|
  {
    if b == [] then Ok([])
    else
      var (h, rest) :- DecLine(t, b);
      var more :- DecLines(t, rest);
      Ok([h] + more)
  }

  /** Required insert count, delta base, lines. */
  ghost function DecBlock(t: Tables, data: Bytes): (r: QpackResult<seq<Header>>)
    requires TablesOk(t)
    ensures r.Ok? ==> forall i :: 0 <= i < |r.value| ==> Texts(r.value[i])
  {
    if |data| < 2 then QpackError
    else
      var (_, afterCount) :- DecPrefixInt(data, 8);
      var (_, afterBase) :- DecPrefixInt(afterCount, 7);
      DecLines(t, afterBase)
  }

  // ---- Round trip ----

  predicate Sized(h: Header) { |h.0| <= MAX_LEN && |h.1| <= MAX_LEN }

  lemma FirstByteOf(v: nat, bits: nat, mask: nat, rest: Bytes)
    requires MaskFits(bits, mask)
    ensures var b := EncPrefixInt(v, bits, mask) + rest; b != [] && mask <= b[0] < mask + Pow2(bits)
  {
  }

  lemma RawStringIs(b: Bytes, bits: nat, raw: Bytes, rest: Bytes)
    requires DecPrefixInt(b, bits) == Ok((|raw|, raw + rest)) && |raw| <= MAX_LEN
    ensures RawString(b, bits) == Ok((raw, rest))
  {
    var n := |b| - |raw + rest|;
    assert (n + |raw|) % TWO64 == n + |raw|;
    assert (raw + rest)[..|raw|] == raw && (raw + rest)[|raw|..] == rest;
  }

  /** Where strings stand: names of three-bit length, values of seven-bit length. */
  predicate StringMask(bits: nat, mask: nat) {
    (bits == 3 && (mask == 0x20 || mask == 0x28 || mask == 0x30 || mask == 0x38))
    || (bits == 7 && (mask == 0 || mask == 0x80))
  }

  predicate SaysHuffman(mask: nat) { mask == 0x28 || mask == 0x38 || mask == 0x80 }

  /** The bit above the prefix tells Huffman coding. */
  lemma HuffmanFlag(x: Byte, bits: nat, mask: nat)
    requires StringMask(bits, mask)
    requires mask <= x < mask + Pow2(bits)
    ensures (x / Pow2(bits) % 2 == 1) <==> SaysHuffman(mask)
  {
    LiteralMasks();
    if bits == 3 {
      assert x / 8 == mask / 8;
    } else {
      assert x / 128 == mask / 128;
    }
  }

  lemma StringFrom(t: Tables, b: Bytes, raw: Bytes, bits: nat, mask: nat, rest: Bytes, text: Option<Bytes>)
    requires TablesOk(t) && b != [] && DecPrefixInt(b, bits) == Ok((|raw|, raw + rest)) && |raw| <= MAX_LEN
    requires mask <= b[0] < mask + Pow2(bits)
    requires StringMask(bits, mask)
    requires text == if SaysHuffman(mask) then Decode(t.huffman, BytesToBits(raw)) else Some(raw)
    ensures DecString(t, b, bits) == if text.None? || !ValidUtf8(text.value) then QpackError else Ok((text.value, rest))
  {
    HuffmanFlag(b[0], bits, mask);
    RawStringIs(b, bits, raw, rest);
  }

  /** Length, bytes, and what follows them. */
  ghost function LengthPrefixed(raw: Bytes, bits: nat, mask: nat, rest: Bytes): (b: Bytes)
    requires |raw| <= MAX_LEN && MaskFits(bits, mask)
    ensures b == EncPrefixInt(|raw|, bits, mask) + raw + rest
    ensures b != [] && mask <= b[0] < mask + Pow2(bits) && DecPrefixInt(b, bits) == Ok((|raw|, raw + rest))
  {
    var head := EncPrefixInt(|raw|, bits, mask);
    assert head + (raw + rest) == head + raw + rest;
    FirstByteOf(|raw|, bits, mask, raw + rest);
    PrefixIntBack(|raw|, bits, mask, raw + rest);
    head + raw + rest
  }

  /** A length-prefixed string, plain or Huffman coded. */
  lemma StringBack(t: Tables, raw: Bytes, bits: nat, mask: nat, rest: Bytes, text: Option<Bytes>)
    requires TablesOk(t) && |raw| <= MAX_LEN && MaskFits(bits, mask)
    requires StringMask(bits, mask)
    requires text == if SaysHuffman(mask) then Decode(t.huffman, BytesToBits(raw)) else Some(raw)
    ensures DecString(t, EncPrefixInt(|raw|, bits, mask) + raw + rest, bits)
         == if text.None? || !ValidUtf8(text.value) then QpackError else Ok((text.value, rest))
  {
    var b := LengthPrefixed(raw, bits, mask, rest);
    StringFrom(t, b, raw, bits, mask, rest, text);
  }

  lemma LineBack(t: Tables, h: Header, rest: Bytes)
    requires TablesOk(t) && Texts(h) && Sized(h)
    ensures DecLine(t, EncLine(h) + rest) == Ok((h, rest))
  {
    LiteralMasks();
    var name, value := EncPrefixInt(|h.0|, 3, 0x20), EncPrefixInt(|h.1|, 7, 0x00);
    var b := EncLine(h) + rest;
    assert b == name + h.0 + (value + h.1 + rest);
    assert b == name + (h.0 + (value + h.1 + rest));
    FirstByteOf(|h.0|, 3, 0x20, h.0 + (value + h.1 + rest));
    StringBack(t, h.0, 3, 0x20, value + h.1 + rest, Some(h.0));
    StringBack(t, h.1, 7, 0x00, rest, Some(h.1));
  }

  lemma {:induction false} LinesBack(t: Tables, hs: seq<Header>)
    requires TablesOk(t) && forall i :: 0 <= i < |hs| ==> Texts(hs[i]) && Sized(hs[i])
    ensures DecLines(t, EncLines(hs)) == Ok(hs)
  {
    if hs != [] {
      LineBack(t, hs[0], EncLines(hs[1..]));
      LinesBack(t, hs[1..]);
      FirstLineNotEmpty(hs);
      assert [hs[0]] + hs[1..] == hs;
    }
  }

  lemma FirstLineNotEmpty(hs: seq<Header>)
    requires hs != []
    ensures EncLines(hs) != []
  {
  }

  /** Decoding inverts encoding for every list of UTF-8 headers, whatever the tables. */
  lemma BlockBack(t: Tables, hs: seq<Header>)
    requires TablesOk(t) && forall i :: 0 <= i < |hs| ==> Texts(hs[i]) && Sized(hs[i])
    ensures DecBlock(t, EncBlock(hs)) == Ok(hs)
  {
    var lines := EncLines(hs);
    assert EncBlock(hs) == [0] + ([0] + lines);
    ZeroBack([0] + lines, 8);
    ZeroBack(lines, 7);
    LinesBack(t, hs);
  }

  lemma ZeroBack(rest: Bytes, bits: nat)
    requires bits == 7 || bits == 8
    ensures DecPrefixInt([0] + rest, bits) == Ok((0, rest))
  {
    LiteralMasks();
    assert ([0] + rest)[1..] == rest;
  }

  /** Whatever a block decodes to can be encoded again and decodes to the same. */
  lemma DecodedBlockStays(t: Tables, data: Bytes)
    requires TablesOk(t) && DecBlock(t, data).Ok?
    requires forall i :: 0 <= i < |DecBlock(t, data).value| ==> Sized(DecBlock(t, data).value[i])
    ensures DecBlock(t, EncBlock(DecBlock(t, data).value)) == DecBlock(t, data)
  {
    BlockBack(t, DecBlock(t, data).value);
  }

  /** A Huffman-coded value, padded with ones, decodes to its text. */
  lemma HuffmanStringBack(t: Tables, s: Bytes, raw: Bytes, pad: nat, rest: Bytes)
    requires TablesOk(t) && OnesUnfinished(t.huffman) && ValidUtf8(s) && InTable(t.huffman, s) && pad <= 7
    requires |raw| <= MAX_LEN && BytesToBits(raw) == Encode(t.huffman, s) + Ones(pad)
    requires MaskFits(7, 0x80)
    ensures DecString(t, EncPrefixInt(|raw|, 7, 0x80) + raw + rest, 7) == Ok((s, rest))
  {
    PaddedStringDecodes(t.huffman, s, pad, raw);
    StringBack(t, raw, 7, 0x80, rest, Some(s));
  }

  // ---- Lines, for any reader of one line ----

  ghost function LineReader(t: Tables): Bytes -> QpackResult<(Header, Bytes)>
    requires TablesOk(t)
  {
    (b: Bytes) => if b == [] then QpackError else DecLine(t, b)
  }

  ghost predicate ReadsLines(t: Tables, dec: Bytes -> QpackResult<(Header, Bytes)>)
    requires TablesOk(t)
  {
    forall b {:trigger DecLine(t, b)} :: b != [] ==> dec(b) == DecLine(t, b)
  }

  /** The lines so far, and what is left to do. */
  ghost function LinesFrom(dec: Bytes -> QpackResult<(Header, Bytes)>, b: Bytes,
                           done: seq<Header>): QpackResult<seq<Header>>
    decreases |b|
  {
    if b == [] then Ok(done)
    else
      var (h, rest) :- dec(b);
      if |rest| < |b| then LinesFrom(dec, rest, done + [h]) else QpackError
  }

  lemma OneMore(done: seq<Header>, h: Header, more: seq<Header>)
    ensures done + ([h] + more) == done + [h] + more
  {
  }

  lemma {:induction false} LinesFromMeans(t: Tables, dec: Bytes -> QpackResult<(Header, Bytes)>, b: Bytes,
                                          done: seq<Header>)
    requires TablesOk(t) && ReadsLines(t, dec)
    ensures LinesFrom(dec, b, done) == (if DecLines(t, b).Ok? then Ok(done + DecLines(t, b).value) else DecLines(t, b))
    decreases |b|
  {
    if b == [] {
      assert done + [] == done;
    } else if DecLine(t, b).Ok? {
      var (h, rest) := DecLine(t, b).value;
      LinesFromMeans(t, dec, rest, done + [h]);
      if DecLines(t, rest).Ok? { OneMore(done, h, DecLines(t, rest).value); }
    }
  }

  lemma LinesFromStart(t: Tables, dec: Bytes -> QpackResult<(Header, Bytes)>, b: Bytes)
    requires TablesOk(t) && ReadsLines(t, dec)
    ensures LinesFrom(dec, b, []) == DecLines(t, b)
  {
    LinesFromMeans(t, dec, b, []);
    if DecLines(t, b).Ok? { assert [] + DecLines(t, b).value == DecLines(t, b).value; }
  }

  /** What is left of the lines after the first i. */
  ghost function LeftAfter(dec: Bytes -> QpackResult<(Header, Bytes)>, b: Bytes, i: nat): QpackResult<Bytes>
    decreases i
  {
    if i == 0 then Ok(b)
    else if b == [] then QpackError
    else
      var (_, rest) :- dec(b);
      LeftAfter(dec, rest, i - 1)
  }

  /** The reader comes to line i and faults on it. */
  ghost predicate FaultsAt(dec: Bytes -> QpackResult<(Header, Bytes)>, b: Bytes, i: nat) {
    var line := LeftAfter(dec, b, i);
    line.Ok? && line.value != [] && dec(line.value).Fault?
  }

  ghost predicate Shortens(dec: Bytes -> QpackResult<(Header, Bytes)>) {
    forall b :: dec(b).Ok? ==> |dec(b).value.1| < |b|
  }

  lemma {:induction false} SomeLineFaults(dec: Bytes -> QpackResult<(Header, Bytes)>, b: Bytes, done: seq<Header>)
    requires Shortens(dec)
    ensures LinesFrom(dec, b, done).Fault? <==> exists i: nat :: FaultsAt(dec, b, i)
    decreases |b|
  {
    assert FaultsAt(dec, b, 0) <==> b != [] && dec(b).Fault?;
    if b != [] && dec(b).Ok? {
      var (h, rest) := dec(b).value;
      SomeLineFaults(dec, rest, done + [h]);
      if i: nat :| FaultsAt(dec, b, i) {
        assert FaultsAt(dec, rest, i - 1);
      }
      if i: nat :| FaultsAt(dec, rest, i) {
        assert FaultsAt(dec, b, i + 1);
      }
    }
  }

  // ---- Strings that end beyond 2^64 ----

  /** The announced length, counted from the beginning of the string, exceeds 64 bits. */
  predicate EndsBeyond(b: Bytes, bits: nat) {
    var r := DecPrefixInt(b, bits);
    r.Ok? && |b| - |r.value.1| + r.value.0 >= TWO64
  }

  /** Such a string, and no other, makes the end wrap below the beginning. */
  lemma StringFaultsIff(t: Tables, b: Bytes, bits: nat)
    requires TablesOk(t) && 1 <= bits <= 8
    ensures DecString(t, b, bits).Fault? <==> EndsBeyond(b, bits)
  {
    if b != [] && DecPrefixInt(b, bits).Ok? {
      DecodedIsMeantModulo(b, bits);
      var (len, rest) := DecPrefixInt(b, bits).value;
      var n := |b| - |rest|;
      if n + len >= TWO64 {
        ModOfMultiple(n + len - TWO64, 1, TWO64);
        assert (n + len) % TWO64 < n;
      }
    }
  }

  /** The decoder of the line at the head of b comes to the string at the head of s. */
  ghost predicate Reaches(t: Tables, b: Bytes, s: Bytes, bits: nat)
    requires TablesOk(t) && b != []
  {
    if b[0] >= 128 then false
    else if b[0] >= 64 then
      var r := DecPrefixInt(b, 4);
      r.Ok? && b[0] / 16 % 2 == 1 && r.value.0 < |t.static_| && s == r.value.1 && bits == 7
    else b[0] >= 32 && ((s == b && bits == 3)
                        || (DecString(t, b, 3).Ok? && s == DecString(t, b, 3).value.1 && bits == 7))
  }

  /** Line i is reached, and in it a string that ends beyond 2^64. */
  ghost predicate EndsBeyondIn(t: Tables, b: Bytes, i: nat, s: Bytes, bits: nat)
    requires TablesOk(t)
  {
    var line := LeftAfter(LineReader(t), b, i);
    line.Ok? && line.value != [] && Reaches(t, line.value, s, bits) && EndsBeyond(s, bits)
  }

  lemma LineFaultsIff(t: Tables, b: Bytes)
    requires TablesOk(t) && b != []
    ensures DecLine(t, b).Fault? <==> exists s, bits :: Reaches(t, b, s, bits) && EndsBeyond(s, bits)
  {
    if 64 <= b[0] < 128 && DecPrefixInt(b, 4).Ok? {
      StringFaultsIff(t, DecPrefixInt(b, 4).value.1, 7);
      assert DecLine(t, b).Fault? ==> Reaches(t, b, DecPrefixInt(b, 4).value.1, 7);
    } else if 32 <= b[0] < 64 {
      StringFaultsIff(t, b, 3);
      assert Reaches(t, b, b, 3);
      if DecString(t, b, 3).Ok? {
        StringFaultsIff(t, DecString(t, b, 3).value.1, 7);
        assert Reaches(t, b, DecString(t, b, 3).value.1, 7);
      }
    }
  }

  lemma FaultsAtIff(t: Tables, b: Bytes, i: nat)
    requires TablesOk(t)
    ensures FaultsAt(LineReader(t), b, i) <==> exists s, bits :: EndsBeyondIn(t, b, i, s, bits)
  {
    var line := LeftAfter(LineReader(t), b, i);
    if line.Ok? && line.value != [] {
      LineFaultsIff(t, line.value);
      if s, bits :| Reaches(t, line.value, s, bits) && EndsBeyond(s, bits) {
        assert EndsBeyondIn(t, b, i, s, bits);
      }
    }
  }

  lemma LinesFaultIff(t: Tables, b: Bytes)
    requires TablesOk(t)
    ensures DecLines(t, b).Fault? <==> exists i: nat, s, bits :: EndsBeyondIn(t, b, i, s, bits)
  {
    var dec := LineReader(t);
    LinesFromStart(t, dec, b);
    SomeLineFaults(dec, b, []);
    if i: nat :| FaultsAt(dec, b, i) { FaultsAtIff(t, b, i); }
    if i: nat, s, bits :| EndsBeyondIn(t, b, i, s, bits) { FaultsAtIff(t, b, i); }
  }

  /** The decoder of blocks panics exactly when it comes to a string whose end, as a sum, exceeds 64 bits. */
  lemma BlockFaultsIff(t: Tables, data: Bytes)
    requires TablesOk(t)
    ensures DecBlock(t, data).Fault?
       <==> |data| >= 2 && DecPrefixInt(data, 8).Ok? && DecPrefixInt(DecPrefixInt(data, 8).value.1, 7).Ok?
            && var lines := DecPrefixInt(DecPrefixInt(data, 8).value.1, 7).value.1;
               exists i: nat, s, bits :: EndsBeyondIn(t, lines, i, s, bits)
  {
    if |data| >= 2 && DecPrefixInt(data, 8).Ok? && DecPrefixInt(DecPrefixInt(data, 8).value.1, 7).Ok? {
      LinesFaultIff(t, DecPrefixInt(DecPrefixInt(data, 8).value.1, 7).value.1);
    }
  }

  /** A literal name of announced length 2^64 - 1. */
  lemma EndlessName(b: Bytes)
    requires |b| == 11 && b[0] == 0x27 && b[1] == 0xF8 && (forall i :: 2 <= i < 10 ==> b[i] == 0xFF) && b[10] == 0x01
    ensures EndsBeyond(b, 3)
  {
    LiteralMasks();
    TailOfMax(b[1..]);
    PrefixIntBack(TWO64 - 1, 3, 0x20, []);
    assert EncPrefixInt(TWO64 - 1, 3, 0x20) + [] == [0x27] + b[1..] == b;
  }

  /** A block with nothing but such a name. */
  lemma FaultingBlock(t: Tables, data: Bytes)
    requires TablesOk(t) && data == [0, 0, 0x27, 0xF8, 0xFF, 0xFF, 0xFF, 0xFF, 0xFF, 0xFF, 0xFF, 0xFF, 0x01]
    ensures DecBlock(t, data) == Fault
  {
    var b := data[2..];
    assert data == [0] + ([0] + b);
    ZeroBack([0] + b, 8);
    ZeroBack(b, 7);
    EndlessName(b);
    assert EndsBeyondIn(t, b, 0, b, 3);
    BlockFaultsIff(t, data);
  }

  // ---- As the source runs it ----

  method EncodeHeaderBlock(headers: seq<Header>) returns (buf: Bytes)
    ensures buf == EncBlock(headers)
  {
    buf := [0, 0];
    assert headers[0..] == headers;
    for i := 0 to |headers|
      invariant buf + EncLines(headers[i..]) == EncBlock(headers)
    {
      assert headers[i..][1..] == headers[i + 1..];
      assert buf + (EncLine(headers[i]) + EncLines(headers[i + 1..]))
             == buf + EncLine(headers[i]) + EncLines(headers[i + 1..]);
      buf := EncodeLine(buf, headers[i].0, headers[i].1);
    }
  }

  method EncodeLine(buf: Bytes, name: Bytes, value: Bytes) returns (out: Bytes)
    ensures out == buf + EncLine((name, value))
  {
    LiteralMasks();
    out := EncodePrefixInt(buf, |name|, 3, 0x20);
    out := out + name;
    out := EncodePrefixInt(out, |value|, 7, 0x00);
    out := out + value;
  }

  /** The text and the number of bytes it takes. */
  method DecodeString(t: Tables, data: Bytes, bits: nat) returns (r: QpackResult<(Bytes, nat)>)
    requires TablesOk(t)
    ensures Tells(r, DecString(t, data, bits), data)
  {
    if data == [] {
      return QpackError;
    }
    var huffman := data[0] / Pow2(bits) % 2 == 1;
    var prefix :- DecodePrefixInt(data, bits);
    var (length, n) := prefix;
    var end := (n + length) % TWO64;
    if |data| < end {
      return QpackError;
    }
    if end < n {
      return Fault;
    }
    assert data[n..][..end - n] == data[n..end] && data[n..][end - n..] == data[end..];
    var raw := data[n..end];
    var text: Option<Bytes> := Some(raw);
    if huffman {
      text := HuffmanDecode(t.huffman, raw);
    }
    if text.None? || !ValidUtf8(text.value) {
      return QpackError;
    }
    return Ok((text.value, end));
  }

  /** One field line and the number of bytes it takes. */
  method DecodeLine(t: Tables, data: Bytes) returns (r: QpackResult<(Header, nat)>)
    requires TablesOk(t) && data != []
    ensures Tells(r, DecLine(t, data), data)
  {
    var firstByte := data[0];
    if firstByte >= 0x80 {
      var prefix :- DecodePrefixInt(data, 6);
      if firstByte % 0x80 >= 0x40 && prefix.0 < |t.static_| {
        return Ok((t.static_[prefix.0], prefix.1));
      }
      return QpackError;
    } else if firstByte >= 0x40 {
      var prefix :- DecodePrefixInt(data, 4);
      if firstByte / 0x10 % 2 != 1 || prefix.0 >= |t.static_| {
        return QpackError;
      }
      var value :- DecodeString(t, data[prefix.1..], 7);
      assert data[prefix.1..][value.1..] == data[prefix.1 + value.1..];
      return Ok(((t.static_[prefix.0].0, value.0), prefix.1 + value.1));
    } else if firstByte >= 0x20 {
      var name :- DecodeString(t, data, 3);
      var value :- DecodeString(t, data[name.1..], 7);
      assert data[name.1..][value.1..] == data[name.1 + value.1..];
      return Ok(((name.0, value.0), name.1 + value.1));
    }
    return QpackError;
  }

  method DecodeHeaderBlock(t: Tables, data: Bytes) returns (r: QpackResult<seq<Header>>)
    requires TablesOk(t)
    ensures r == DecBlock(t, data)
  {
    if |data| < 2 {
      return QpackError;
    }
    var count :- DecodePrefixInt(data, 8);
    var base :- DecodePrefixInt(data[count.1..], 7);
    assert data[count.1..][base.1..] == data[count.1 + base.1..];
    r := DecodeLines(t, data[count.1 + base.1..]);
  }

  method DecodeLines(t: Tables, data: Bytes) returns (r: QpackResult<seq<Header>>)
    requires TablesOk(t)
    ensures r == DecLines(t, data)
  {
    ghost var dec := LineReader(t);
    LinesFromStart(t, dec, data);
    r := DecodeLinesLoop(t, data, dec);
  }

  method DecodeLinesLoop(t: Tables, data: Bytes, ghost dec: Bytes -> QpackResult<(Header, Bytes)>)
    returns (r: QpackResult<seq<Header>>)
    requires TablesOk(t) && ReadsLines(t, dec)
    ensures r == LinesFrom(dec, data, [])
  {
    var headers: seq<Header> := [];
    var offset := 0;
    assert data[0..] == data;
    while offset < |data|
      invariant offset <= |data| && LinesFrom(dec, data[offset..], headers) == LinesFrom(dec, data, [])
      decreases |data| - offset
    {
      var line :- DecodeLineAt(t, data, offset, dec);
      headers := headers + [line.0];
      offset := line.1;
    }
    return Ok(headers);
  }

  /** The line at offset and the offset after it. */
  method DecodeLineAt(t: Tables, data: Bytes, offset: nat, ghost dec: Bytes -> QpackResult<(Header, Bytes)>)
    returns (r: QpackResult<(Header, nat)>)
    requires TablesOk(t) && ReadsLines(t, dec) && offset < |data|
    ensures Tells(r, dec(data[offset..]), data)
    ensures r.Ok? ==> offset < r.value.1
  {
    ghost var read := dec(data[offset..]);
    assert read == DecLine(t, data[offset..]);
    var line := DecodeLine(t, data[offset..]);
    r := Moved(line, data, offset, read);
  }

  /** The same line, its end counted from the beginning of data. */
  method Moved(line: QpackResult<(Header, nat)>, data: Bytes, offset: nat, ghost read: QpackResult<(Header, Bytes)>)
    returns (r: QpackResult<(Header, nat)>)
    requires offset < |data| && Tells(line, read, data[offset..]) && (read.Ok? ==> |read.value.1| < |data| - offset)
    ensures Tells(r, read, data) && (r.Ok? ==> offset < r.value.1)
  {
    if !line.Ok? {
      return line;
    }
    assert data[offset..][line.value.1..] == data[offset + line.value.1..];
    return Ok((line.value.0, offset + line.value.1));
  }
}
