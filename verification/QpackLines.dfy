/** Field lines bit by bit (section 4.5 of RFC 9204): static references, literals under a static name, and literals
    with a name of their own, alone and in blocks. */
module QpackLines {
  import opened MoqTypes
  import opened Utf8
  import opened HuffmanCodes
  import opened HuffmanTree
  import opened QpackInts
  import opened QpackHeaders

  /** The bytes of a string as they stand in a block. */
  datatype Coded = Coded(huffman: bool, raw: Bytes)

  datatype Line =
    | Indexed(index: nat)
    | Named(index: nat, never: bool, value: Coded)
    | Literal(never: bool, name: Coded, value: Coded)

  // ---- Bytes ----

  lemma LineMasks()
    ensures MaskFits(6, 0xC0) && MaskFits(4, 0x50) && MaskFits(4, 0x70) && MaskFits(8, 0)
    ensures MaskFits(3, 0x20) && MaskFits(3, 0x28) && MaskFits(3, 0x30) && MaskFits(3, 0x38)
    ensures MaskFits(7, 0) && MaskFits(7, 0x80) && Pow2(4) == 16 && Pow2(6) == 64
  {
    LiteralMasks();
    assert Pow2(4) == 2 * Pow2(3);
    assert Pow2(5) == 2 * Pow2(4);
    assert Pow2(6) == 2 * Pow2(5);
  }

  /** The H bit 0x80, and the length in seven bits. */
  function ValueBytes(c: Coded): Bytes {
    LineMasks();
    EncPrefixInt(|c.raw|, 7, if c.huffman then 0x80 else 0) + c.raw
  }

  /** 1 T=1, index in six bits; 0 1 N T=1, index in four bits, value; 0 0 1 N H, name of three-bit length, value. */
  function LineBytes(l: Line): Bytes {
    LineMasks();
    match l
    case Indexed(i) => EncPrefixInt(i, 6, 0xC0)
    case Named(i, never, value) => EncPrefixInt(i, 4, if never then 0x70 else 0x50) + ValueBytes(value)
    case Literal(never, name, value) =>
      EncPrefixInt(|name.raw|, 3, 0x20 + (if never then 0x10 else 0) + (if name.huffman then 0x08 else 0)) + name.raw
      + ValueBytes(value)
  }

  function LinesBytes(ls: seq<Line>): Bytes {
    if ls == [] then [] else LineBytes(ls[0]) + LinesBytes(ls[1..])
  }

  /** Required insert count in eight bits, sign and delta base in seven, lines. */
  function BlockBytes(count: nat, negative: bool, base: nat, ls: seq<Line>): Bytes {
    LineMasks();
    EncPrefixInt(count, 8, 0) + EncPrefixInt(base, 7, if negative then 0x80 else 0) + LinesBytes(ls)
  }

  // ---- Meaning ----

  ghost function Text(t: Tables, c: Coded): Option<Bytes>
    requires TablesOk(t)
  {
    var text := if c.huffman then Decode(t.huffman, BytesToBits(c.raw)) else Some(c.raw);
    if text.Some? && ValidUtf8(text.value) then text else None
  }

  function Both(name: Option<Bytes>, value: Option<Bytes>): Option<Header> {
    if name.Some? && value.Some? then Some((name.value, value.value)) else None
  }

  /** The header a line stands for; None: an index beyond the static table, or no text. */
  ghost function Meaning(t: Tables, l: Line): Option<Header>
    requires TablesOk(t)
  {
    match l
    case Indexed(i) => if i < |t.static_| then Some(t.static_[i]) else None
    case Named(i, _, value) => if i < |t.static_| then Both(Some(t.static_[i].0), Text(t, value)) else None
    case Literal(_, name, value) => Both(Text(t, name), Text(t, value))
  }

  ghost function Meanings(t: Tables, ls: seq<Line>): Option<seq<Header>>
    requires TablesOk(t)
  {
    if ls == [] then Some([])
    else if Meaning(t, ls[0]).None? || Meanings(t, ls[1..]).None? then None
    else Some([Meaning(t, ls[0]).value] + Meanings(t, ls[1..]).value)
  }

  /** Lengths and indexes that fit the machine. */
  predicate FitsMachine(l: Line) {
    match l
    case Indexed(i) => i < TWO64
    case Named(i, _, value) => i < TWO64 && |value.raw| <= MAX_LEN
    case Literal(_, name, value) => |name.raw| <= MAX_LEN && |value.raw| <= MAX_LEN
  }

  // ---- One line ----

  lemma TextBack(t: Tables, c: Coded, bits: nat, mask: nat, rest: Bytes)
    requires TablesOk(t) && |c.raw| <= MAX_LEN && MaskFits(bits, mask) && StringMask(bits, mask)
    requires c.huffman <==> SaysHuffman(mask)
    ensures DecString(t, EncPrefixInt(|c.raw|, bits, mask) + c.raw + rest, bits)
         == if Text(t, c).None? then QpackError else Ok((Text(t, c).value, rest))
  {
    StringBack(t, c.raw, bits, mask, rest, if c.huffman then Decode(t.huffman, BytesToBits(c.raw)) else Some(c.raw));
  }

  lemma ValueBack(t: Tables, c: Coded, rest: Bytes)
    requires TablesOk(t) && |c.raw| <= MAX_LEN
    ensures DecString(t, ValueBytes(c) + rest, 7)
         == if Text(t, c).None? then QpackError else Ok((Text(t, c).value, rest))
  {
    LineMasks();
    TextBack(t, c, 7, if c.huffman then 0x80 else 0, rest);
  }

  /** A static reference is the entry of the table. */
  lemma IndexedBack(t: Tables, index: nat, rest: Bytes)
    requires TablesOk(t) && index < TWO64 && MaskFits(6, 0xC0)
    ensures EncPrefixInt(index, 6, 0xC0) + rest != []
    ensures DecLine(t, EncPrefixInt(index, 6, 0xC0) + rest)
         == if index < |t.static_| then Ok((t.static_[index], rest)) else QpackError
  {
    LineMasks();
    PrefixIntBack(index, 6, 0xC0, rest);
    FirstByteOf(index, 6, 0xC0, rest);
  }

  /** A literal under a static name has the name of the entry, and its own value. */
  lemma NamedBack(t: Tables, index: nat, mask: nat, value: Coded, rest: Bytes)
    requires TablesOk(t) && index < TWO64 && |value.raw| <= MAX_LEN
    requires (mask == 0x50 || mask == 0x70) && MaskFits(4, mask)
    ensures EncPrefixInt(index, 4, mask) + ValueBytes(value) + rest != []
    ensures DecLine(t, EncPrefixInt(index, 4, mask) + ValueBytes(value) + rest)
         == if index >= |t.static_| || Text(t, value).None? then QpackError
            else Ok(((t.static_[index].0, Text(t, value).value), rest))
  {
    LineMasks();
    var after := ValueBytes(value) + rest;
    assert EncPrefixInt(index, 4, mask) + ValueBytes(value) + rest == EncPrefixInt(index, 4, mask) + after;
    PrefixIntBack(index, 4, mask, after);
    FirstByteOf(index, 4, mask, after);
    NameBit((EncPrefixInt(index, 4, mask) + after)[0], mask);
    ValueBack(t, value, rest);
  }

  lemma NameBit(x: Byte, mask: nat)
    requires (mask == 0x50 || mask == 0x70) && mask <= x < mask + 16
    ensures 64 <= x < 128 && x / 16 % 2 == 1
  {
  }

  lemma LiteralBack(t: Tables, mask: nat, name: Coded, value: Coded, rest: Bytes)
    requires TablesOk(t) && |name.raw| <= MAX_LEN && |value.raw| <= MAX_LEN
    requires StringMask(3, mask) && MaskFits(3, mask) && (name.huffman <==> SaysHuffman(mask))
    ensures EncPrefixInt(|name.raw|, 3, mask) + name.raw + ValueBytes(value) + rest != []
    ensures DecLine(t, EncPrefixInt(|name.raw|, 3, mask) + name.raw + ValueBytes(value) + rest)
         == if Text(t, name).None? || Text(t, value).None? then QpackError
            else Ok(((Text(t, name).value, Text(t, value).value), rest))
  {
    LineMasks();
    LiteralMasks();
    var head, after := EncPrefixInt(|name.raw|, 3, mask), ValueBytes(value) + rest;
    assert head + name.raw + ValueBytes(value) + rest == head + name.raw + after;
    assert head + name.raw + after == head + (name.raw + after);
    FirstByteOf(|name.raw|, 3, mask, name.raw + after);
    TextBack(t, name, 3, mask, after);
    ValueBack(t, value, rest);
  }

  /** A line, whatever follows it, is read as the header it stands for; without one it is an error. */
  lemma LineMeans(t: Tables, l: Line, rest: Bytes)
    requires TablesOk(t) && FitsMachine(l)
    ensures LineBytes(l) + rest != []
    ensures DecLine(t, LineBytes(l) + rest)
         == if Meaning(t, l).None? then QpackError else Ok((Meaning(t, l).value, rest))
  {
    LineMasks();
    match l
    case Indexed(i) => IndexedBack(t, i, rest);
    case Named(i, never, value) => NamedBack(t, i, if never then 0x70 else 0x50, value, rest);
    case Literal(never, name, value) =>
      LiteralBack(t, 0x20 + (if never then 0x10 else 0) + (if name.huffman then 0x08 else 0), name, value, rest);
  }

  /** References to the dynamic table and lines under a base are errors: the static bit clear, or a first byte
      below 0x20. */
  lemma OtherLinesFail(t: Tables, b: Bytes)
    requires TablesOk(t) && b != []
    requires b[0] < 0x20 || 0x80 <= b[0] < 0xC0 || (0x40 <= b[0] < 0x80 && b[0] / 0x10 % 2 == 0)
    ensures DecLine(t, b) == QpackError
  {
  }

  // ---- Blocks ----

  lemma {:induction false} LinesMean(t: Tables, ls: seq<Line>)
    requires TablesOk(t) && forall i :: 0 <= i < |ls| ==> FitsMachine(ls[i])
    ensures DecLines(t, LinesBytes(ls)) == if Meanings(t, ls).None? then QpackError else Ok(Meanings(t, ls).value)
  {
    if ls != [] {
      LineMeans(t, ls[0], LinesBytes(ls[1..]));
      LinesMean(t, ls[1..]);
    }
  }

  lemma BlockFrom(t: Tables, data: Bytes, count: nat, after: Bytes, base: nat, lines: Bytes)
    requires TablesOk(t) && |data| >= 2
    requires DecPrefixInt(data, 8) == Ok((count, after)) && DecPrefixInt(after, 7) == Ok((base, lines))
    ensures DecBlock(t, data) == DecLines(t, lines)
  {
  }

  /** Both numbers before the lines are read, whatever they are. */
  lemma BlockHead(t: Tables, count: nat, base: nat, mask: nat, lines: Bytes)
    requires TablesOk(t) && count < TWO64 && base < TWO64 && (mask == 0 || mask == 0x80)
    requires MaskFits(8, 0) && MaskFits(7, mask)
    ensures DecBlock(t, EncPrefixInt(count, 8, 0) + EncPrefixInt(base, 7, mask) + lines) == DecLines(t, lines)
  {
    var a, b := EncPrefixInt(count, 8, 0), EncPrefixInt(base, 7, mask);
    assert a + b + lines == a + (b + lines);
    PrefixIntBack(count, 8, 0, b + lines);
    PrefixIntBack(base, 7, mask, lines);
    assert |a| >= 1 && |b| >= 1;
    BlockFrom(t, a + (b + lines), count, b + lines, base, lines);
  }

  /** A block of lines of all three kinds is read as the headers they stand for, in order; and is an error if one
      of them stands for none. */
  lemma BlockMeans(t: Tables, count: nat, negative: bool, base: nat, ls: seq<Line>)
    requires TablesOk(t) && count < TWO64 && base < TWO64 && forall i :: 0 <= i < |ls| ==> FitsMachine(ls[i])
    ensures DecBlock(t, BlockBytes(count, negative, base, ls))
         == if Meanings(t, ls).None? then QpackError else Ok(Meanings(t, ls).value)
  {
    LineMasks();
    BlockHead(t, count, base, if negative then 0x80 else 0, LinesBytes(ls));
    LinesMean(t, ls);
  }

  lemma OneMeaning(t: Tables, l: Line)
    requires TablesOk(t) && Meaning(t, l).Some?
    ensures Meanings(t, [l]) == Some([Meaning(t, l).value])
  {
    assert [l][1..] == [];
    assert [Meaning(t, l).value] + [] == [Meaning(t, l).value];
  }

  /** The block [0, 0, 0xCF] is entry 15 of the static table. */
  lemma StaticExample(t: Tables)
    requires TablesOk(t) && |t.static_| > 15
    ensures DecBlock(t, [0x00, 0x00, 0xCF]) == Ok([t.static_[15]])
  {
    LineMasks();
    var l := Indexed(15);
    var data: Bytes := [0x00, 0x00, 0xCF];
    assert LineBytes(l) == [0xCF] && [l][1..] == [];
    assert LinesBytes([l]) == [0xCF];
    assert BlockBytes(0, false, 0, [l]) == data;
    OneMeaning(t, l);
    BlockMeans(t, 0, false, 0, [l]);
  }

  /** What the encoder writes: plain literals, with count and base zero. */
  function Plain(hs: seq<Header>): seq<Line> {
    seq(|hs|, i requires 0 <= i < |hs| => Literal(false, Coded(false, hs[i].0), Coded(false, hs[i].1)))
  }

  lemma {:induction false} EncodedLines(hs: seq<Header>)
    ensures EncLines(hs) == LinesBytes(Plain(hs))
  {
    if hs != [] {
      EncodedLines(hs[1..]);
      assert Plain(hs)[1..] == Plain(hs[1..]);
      EncodedLine(hs[0]);
    }
  }

  lemma EncodedLine(h: Header)
    ensures EncLine(h) == LineBytes(Literal(false, Coded(false, h.0), Coded(false, h.1)))
  {
    LiteralMasks();
    var name, value := EncPrefixInt(|h.0|, 3, 0x20), EncPrefixInt(|h.1|, 7, 0x00);
    assert name + h.0 + value + h.1 == name + h.0 + (value + h.1);
  }

  /** The encoder writes each header as a plain literal, name first, in a block without references. */
  lemma EncodedBlock(hs: seq<Header>)
    ensures EncBlock(hs) == BlockBytes(0, false, 0, Plain(hs))
  {
    LineMasks();
    EncodedLines(hs);
    assert EncPrefixInt(0, 8, 0) == [0] && EncPrefixInt(0, 7, 0) == [0];
  }
}
