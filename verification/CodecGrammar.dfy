/** The grammar of control messages: the decoder accepts exactly the byte strings written out here, and reads
    from each the message it stands for. Integers may take any of the four lengths of a varint. */
module CodecGrammar {
  import opened MoqTypes
  import opened Utf8
  import opened CodecErrors
  import opened WireForms
  import opened CodecChains
  import opened CodecKeyValues
  import opened CodecNames
  import opened CodecFields
  import opened CodecMessages
  import opened CodecFraming
  import opened CodecTheorems
  import opened CodecWire

  // ---- Lists of items ----

  /** The reader of one item takes exactly its form. */
  ghost predicate ExactItems<S(!new), T(!new)>(c: Codec<S, T>, item: (S, T) -> Form) {
    && (forall s, b :: c.dec(s, b).Ok? ==> TakesItem(item, s, c.dec(s, b).value.0, b, c.dec(s, b).value.1))
    && (forall s, x, p, rest :: item(s, x)(p) ==> c.dec(s, p + rest) == Ok((x, rest)))
  }

  predicate TakesItem<S(!new), T(!new)>(item: (S, T) -> Form, s: S, x: T, b: Bytes, rest: Bytes) {
    Splits(b, rest) && item(s, x)(Taken(b, rest))
  }

  function Items<S(!new), T(!new)>(next: (S, T) -> S, item: (S, T) -> Form, s: S, xs: seq<T>): seq<Form>
    decreases |xs|
  {
    if xs == [] then [] else [item(s, xs[0])] + Items(next, item, next(s, xs[0]), xs[1..])
  }

  /** A list written out begins with its first item. */
  lemma ItemsSplit<S(!new), T(!new)>(next: (S, T) -> S, item: (S, T) -> Form, s: S, xs: seq<T>, p: Bytes)
    returns (k: nat)
    requires xs != [] && Is(Items(next, item, s, xs), p)
    ensures k <= |p| && item(s, xs[0])(p[..k]) && Is(Items(next, item, next(s, xs[0]), xs[1..]), p[k..])
  {
    var forms := Items(next, item, s, xs);
    assert forms[1..] == Items(next, item, next(s, xs[0]), xs[1..]);
    k :| k <= |p| && forms[0](p[..k]) && Is(forms[1..], p[k..]);
  }

  lemma ChainFrom<S(!new), T(!new)>(c: Codec<S, T>, s: S, xs: seq<T>, b: Bytes, more: Bytes, rest: Bytes)
    requires xs != [] && c.dec(s, b) == Ok((xs[0], more))
    requires DecChain(c, c.next(s, xs[0]), |xs| - 1, more) == Ok((xs[1..], rest))
    ensures DecChain(c, s, |xs|, b) == Ok((xs, rest))
  {
    assert [xs[0]] + xs[1..] == xs;
  }

  lemma ItemReads<S(!new), T(!new)>(c: Codec<S, T>, item: (S, T) -> Form, s: S, x: T, p: Bytes, rest: Bytes)
    requires ExactItems(c, item) && item(s, x)(p)
    ensures c.dec(s, p + rest) == Ok((x, rest))
  {
  }

  lemma CutAndJoin(p: Bytes, k: nat, rest: Bytes)
    requires k <= |p|
    ensures p + rest == p[..k] + (p[k..] + rest)
  {
  }

  lemma {:induction false} ItemsRead<S(!new), T(!new)>(c: Codec<S, T>, item: (S, T) -> Form, s: S, xs: seq<T>,
                                                       p: Bytes, rest: Bytes)
    requires ExactItems(c, item) && Is(Items(c.next, item, s, xs), p)
    ensures DecChain(c, s, |xs|, p + rest) == Ok((xs, rest))
    decreases |xs|
  {
    if xs == [] {
      assert p + rest == rest;
    } else {
      var k := ItemsSplit(c.next, item, s, xs, p);
      ItemsRead(c, item, c.next(s, xs[0]), xs[1..], p[k..], rest);
      ItemReads(c, item, s, xs[0], p[..k], p[k..] + rest);
      CutAndJoin(p, k, rest);
      ChainFrom(c, s, xs, p + rest, p[k..] + rest, rest);
    }
  }

  /** The first item of a list, and the list of the others. */
  lemma ChainStep<S(!new), T(!new)>(c: Codec<S, T>, s: S, count: nat, b: Bytes, xs: seq<T>, rest: Bytes)
    requires count > 0 && DecChain(c, s, count, b) == Ok((xs, rest))
    ensures xs != [] && c.dec(s, b).Ok? && c.dec(s, b).value.0 == xs[0]
    ensures DecChain(c, c.next(s, xs[0]), count - 1, c.dec(s, b).value.1) == Ok((xs[1..], rest))
  {
    var (x, more) := c.dec(s, b).value;
    var ys := DecChain(c, c.next(s, x), count - 1, more).value.0;
    assert ([x] + ys)[1..] == ys;
  }

  /** The form of the first item taken, and those of the others. */
  lemma ItemsCons<S(!new), T(!new)>(next: (S, T) -> S, item: (S, T) -> Form, s: S, xs: seq<T>, b: Bytes, more: Bytes,
                                    rest: Bytes)
    requires xs != [] && TakesItem(item, s, xs[0], b, more) && Splits(more, rest)
    requires Is(Items(next, item, next(s, xs[0]), xs[1..]), Taken(more, rest))
    ensures Splits(b, rest) && Is(Items(next, item, s, xs), Taken(b, rest))
  {
    TakenBoth(b, more, rest);
    IsCons(item(s, xs[0]), Items(next, item, next(s, xs[0]), xs[1..]), Taken(b, more), Taken(more, rest));
  }

  lemma ItemTaken<S(!new), T(!new)>(c: Codec<S, T>, item: (S, T) -> Form, s: S, b: Bytes)
    requires ExactItems(c, item) && c.dec(s, b).Ok?
    ensures TakesItem(item, s, c.dec(s, b).value.0, b, c.dec(s, b).value.1)
  {
  }

  lemma {:induction false} ReadItems<S(!new), T(!new)>(c: Codec<S, T>, item: (S, T) -> Form, s: S, count: nat,
                                                       b: Bytes, xs: seq<T>, rest: Bytes)
    requires ExactItems(c, item) && DecChain(c, s, count, b) == Ok((xs, rest))
    ensures Splits(b, rest) && Is(Items(c.next, item, s, xs), Taken(b, rest))
    decreases count
  {
    if count > 0 {
      ChainStep(c, s, count, b, xs, rest);
      var more := c.dec(s, b).value.1;
      ItemTaken(c, item, s, b);
      ReadItems(c, item, c.next(s, xs[0]), count - 1, more, xs[1..], rest);
      ItemsCons(c.next, item, s, xs, b, more, rest);
    }
  }

  lemma ItemHead<S(!new), T(!new)>(c: Codec<S, T>, item: (S, T) -> Form, s: S, x: T, p: Bytes, k: nat)
    requires ExactItems(c, item) && k <= |p| && item(s, x)(p[..k])
    ensures c.dec(s, p) == Ok((x, p[k..]))
  {
    ItemReads(c, item, s, x, p[..k], p[k..]);
    assert p == p[..k] + p[k..];
  }

  lemma {:induction false} AllItemsRead<S(!new), T(!new)>(c: Codec<S, T>, item: (S, T) -> Form, s: S, xs: seq<T>,
                                                          p: Bytes)
    requires Consumes(c) && ExactItems(c, item) && Is(Items(c.next, item, s, xs), p)
    ensures DecRemaining(c, s, p) == Ok(xs)
    decreases |xs|
  {
    if xs != [] {
      var k := ItemsSplit(c.next, item, s, xs, p);
      ItemHead(c, item, s, xs[0], p, k);
      AllItemsRead(c, item, c.next(s, xs[0]), xs[1..], p[k..]);
      assert [xs[0]] + xs[1..] == xs;
    }
  }

  lemma {:induction false} ReadAllItems<S(!new), T(!new)>(c: Codec<S, T>, item: (S, T) -> Form, s: S, b: Bytes,
                                                          xs: seq<T>)
    requires Consumes(c) && ExactItems(c, item) && DecRemaining(c, s, b) == Ok(xs)
    ensures Is(Items(c.next, item, s, xs), b)
    decreases |b|
  {
    if b != [] {
      var (x, more) := c.dec(s, b).value;
      var ys := DecRemaining(c, c.next(s, x), more).value;
      assert xs[0] == x && xs[1..] == ys;
      assert TakesItem(item, s, x, b, more);
      ReadAllItems(c, item, c.next(s, x), more, ys);
      assert Taken(more, []) == more && Taken(b, []) == b;
      ItemsCons(c.next, item, s, xs, b, more, []);
    }
  }

  // ---- Namespaces, pairs, parameters ----

  /** A field of a namespace after total bytes of fields: not empty, and at most 4096 bytes in all. */
  predicate IsPart(b: Bytes, total: nat, x: Bytes) { x != [] && total + |x| <= 4096 && IsStr(b, x) }

  function PartL(total: nat, x: Bytes): Form { (b: Bytes) => IsPart(b, total, x) }

  function PartForms(total: nat, ns: Namespace): seq<Form>
    decreases |ns|
  {
    if ns == [] then [] else [PartL(total, ns[0])] + PartForms(total + |ns[0]|, ns[1..])
  }

  /** Under an even key a number, under an odd one at most 65535 bytes. */
  predicate IsValue(b: Bytes, kv: KeyValuePair) {
    match kv.value
    case Varint(n) => kv.key % 2 == 0 && IsInt(b, n)
    case Blob(x) => kv.key % 2 == 1 && |x| <= 65535 && IsStr(b, x)
  }

  function ValueL(kv: KeyValuePair): Form { (b: Bytes) => IsValue(b, kv) }

  /** Distance from the key before, and value; keys are 64-bit numbers. */
  ghost predicate IsPair(b: Bytes, prev: nat, kv: KeyValuePair) {
    prev <= kv.key <= 0xffff_ffff_ffff_ffff && Is([IntL(kv.key - prev), ValueL(kv)], b)
  }

  ghost function PairL(prev: nat, kv: KeyValuePair): Form { (b: Bytes) => IsPair(b, prev, kv) }

  ghost function PairForms(prev: nat, ps: seq<KeyValuePair>): seq<Form>
    decreases |ps|
  {
    if ps == [] then [] else [PairL(prev, ps[0])] + PairForms(ps[0].key, ps[1..])
  }

  /** Between least and 32 fields. */
  ghost predicate IsTuple(b: Bytes, least: nat, ns: Namespace) {
    least <= |ns| <= 32 && Is([IntL(|ns|)] + PartForms(0, ns), b)
  }

  /** As many pairs as announced, and a vector holds them. */
  ghost predicate IsParamList(b: Bytes, ps: Parameters) {
    |ps| * PAIR_BYTES <= MAX_LEN && Is([IntL(|ps|)] + PairForms(0, ps), b)
  }

  ghost function TupleL(least: nat, ns: Namespace): Form { (b: Bytes) => IsTuple(b, least, ns) }
  ghost function ParamListL(ps: Parameters): Form { (b: Bytes) => IsParamList(b, ps) }
  ghost function PairsL(exts: Extensions): Form { (b: Bytes) => Is(PairForms(0, exts), b) }

  lemma {:induction false} PartItems(total: nat, ns: Namespace)
    ensures Items(PartCodec().next, PartL, total, ns) == PartForms(total, ns)
    decreases |ns|
  {
    if ns != [] { PartItems(total + |ns[0]|, ns[1..]); }
  }

  lemma {:induction false} PairItems(item: (nat, KeyValuePair) -> Form, prev: nat, ps: seq<KeyValuePair>)
    requires forall q, kv :: item(q, kv) == PairL(q, kv)
    ensures Items(PairCodec().next, item, prev, ps) == PairForms(prev, ps)
    decreases |ps|
  {
    if ps != [] { PairItems(item, ps[0].key, ps[1..]); }
  }

  lemma PartsExact()
    ensures ExactItems(PartCodec(), PartL)
  {
    var c := PartCodec();
    forall total, b | c.dec(total, b).Ok?
      ensures TakesItem(PartL, total, c.dec(total, b).value.0, b, c.dec(total, b).value.1)
    {
      ReadStr(b);
    }
    forall total: nat, x: Bytes, p: Bytes, rest: Bytes | PartL(total, x)(p)
      ensures c.dec(total, p + rest) == Ok((x, rest))
    {
      StrReads(p, x, rest);
    }
  }

  lemma ValueReads(kv: KeyValuePair, p: Bytes, rest: Bytes)
    requires IsValue(p, kv)
    ensures DecValue(kv.key, p + rest) == Ok((kv.value, rest))
  {
    match kv.value
    case Varint(n) => IntReads(p, n, rest);
    case Blob(x) =>
      IntReads(p[..|p| - |x|], |x|, x + rest);
      assert p + rest == p[..|p| - |x|] + (x + rest);
      BytesBack(x, rest);
  }

  lemma ReadValue(key: nat, b: Bytes)
    requires DecValue(key, b).Ok?
    ensures var (v, rest) := DecValue(key, b).value;
            Splits(b, rest) && IsValue(Taken(b, rest), KeyValuePair(key, v))
  {
    ReadInt(b);
    if key % 2 == 1 {
      assert GetPrefixed(b).Ok?;
      ReadStr(b);
    }
  }

  lemma PairReads(prev: nat, kv: KeyValuePair, p: Bytes, rest: Bytes)
    requires IsPair(p, prev, kv)
    ensures DecPair(prev, p + rest) == Ok((kv, rest))
  {
    var k := IsFirstOfTwo(IntL(kv.key - prev), ValueL(kv), p);
    PairReadsAt(prev, kv, p, k, rest);
  }

  lemma PairReadsAt(prev: nat, kv: KeyValuePair, p: Bytes, k: nat, rest: Bytes)
    requires prev <= kv.key <= MAX_U64 && k <= |p| && IsInt(p[..k], kv.key - prev) && IsValue(p[k..], kv)
    ensures DecPair(prev, p + rest) == Ok((kv, rest))
  {
    IntFirst(p, k, kv.key - prev, rest);
    ValueReads(kv, p[k..], rest);
    PairRead(prev, kv, p + rest, p[k..] + rest, rest);
  }

  lemma ReadPair(prev: nat, b: Bytes)
    requires DecPair(prev, b).Ok?
    ensures var (kv, rest) := DecPair(prev, b).value; Splits(b, rest) && IsPair(Taken(b, rest), prev, kv)
  {
    var (kv, rest) := DecPair(prev, b).value;
    var more := GetVarint(b).value.1;
    PairParts(prev, b, kv, rest);
    ReadInt(b);
    ReadValue(kv.key, more);
    TakenBoth(b, more, rest);
    IsBoth(IntL(kv.key - prev), ValueL(kv), Taken(b, more), Taken(more, rest));
  }

  lemma PairParts(prev: nat, b: Bytes, kv: KeyValuePair, rest: Bytes)
    requires DecPair(prev, b) == Ok((kv, rest))
    ensures prev <= kv.key <= MAX_U64 && GetVarint(b).Ok? && GetVarint(b).value.0 == kv.key - prev
    ensures DecValue(kv.key, GetVarint(b).value.1) == Ok((kv.value, rest))
  {
  }

  ghost predicate PairsRead(item: (nat, KeyValuePair) -> Form) {
    && ExactItems(PairCodec(), item)
    && (forall prev, ps :: Items(PairCodec().next, item, prev, ps) == PairForms(prev, ps))
  }

  /** PairL as a value. */
  ghost function PairItem(): (nat, KeyValuePair) -> Form { (prev: nat, kv: KeyValuePair) => PairL(prev, kv) }

  lemma PairsExact()
    ensures PairsRead(PairItem())
  {
    var c, item := PairCodec(), PairItem();
    forall prev, b | c.dec(prev, b).Ok?
      ensures TakesItem(item, prev, c.dec(prev, b).value.0, b, c.dec(prev, b).value.1)
    {
      ReadPair(prev, b);
    }
    forall prev: nat, kv: KeyValuePair, p: Bytes, rest: Bytes | item(prev, kv)(p)
      ensures c.dec(prev, p + rest) == Ok((kv, rest))
    {
      PairReads(prev, kv, p, rest);
    }
    forall prev: nat, ps: seq<KeyValuePair> ensures Items(c.next, item, prev, ps) == PairForms(prev, ps) {
      PairItems(item, prev, ps);
    }
  }

  // ---- Counted lists ----

  lemma CountJoins(b: Bytes, count: nat, more: Bytes, forms: seq<Form>, rest: Bytes)
    requires GetVarint(b) == Ok((count, more)) && Splits(more, rest) && Is(forms, Taken(more, rest))
    ensures Splits(b, rest) && Is([IntL(count)] + forms, Taken(b, rest))
  {
    ReadInt(b);
    TakenBoth(b, more, rest);
    IsCons(IntL(count), forms, Taken(b, more), Taken(more, rest));
  }

  lemma NamespaceFrom(least: nat, b: Bytes, count: nat, more: Bytes)
    requires GetVarint(b) == Ok((count, more))
    ensures DecNamespace(least, b)
         == if least <= count <= 32 then DecChain(PartCodec(), 0, count, more) else Err(ProtocolViolation)
  {
  }

  lemma TupleReads(least: nat, ns: Namespace, p: Bytes, rest: Bytes)
    requires IsTuple(p, least, ns)
    ensures DecNamespace(least, p + rest) == Ok((ns, rest))
  {
    var k := IsFirst(IntL(|ns|), PartForms(0, ns), p);
    IntFirst(p, k, |ns|, rest);
    NamespaceFrom(least, p + rest, |ns|, p[k..] + rest);
    PartsRead(ns, p[k..], rest);
  }

  lemma PartsRead(ns: Namespace, p: Bytes, rest: Bytes)
    requires Is(PartForms(0, ns), p)
    ensures DecChain(PartCodec(), 0, |ns|, p + rest) == Ok((ns, rest))
  {
    PartsExact();
    PartItems(0, ns);
    ItemsRead(PartCodec(), PartL, 0, ns, p, rest);
  }

  lemma ReadTuple(least: nat, b: Bytes, ns: Namespace, rest: Bytes)
    requires DecNamespace(least, b) == Ok((ns, rest))
    ensures Splits(b, rest) && IsTuple(Taken(b, rest), least, ns)
  {
    var (count, more) := GetVarint(b).value;
    NamespaceFrom(least, b, count, more);
    ReadParts(count, more, ns, rest);
    CountJoins(b, count, more, PartForms(0, ns), rest);
  }

  lemma ReadParts(count: nat, b: Bytes, ns: Namespace, rest: Bytes)
    requires DecChain(PartCodec(), 0, count, b) == Ok((ns, rest))
    ensures Splits(b, rest) && Is(PartForms(0, ns), Taken(b, rest))
  {
    PartsExact();
    ReadItems(PartCodec(), PartL, 0, count, b, ns, rest);
    PartItems(0, ns);
  }

  lemma ParametersFrom(b: Bytes, count: nat, more: Bytes)
    requires GetVarint(b) == Ok((count, more))
    ensures DecParameters(b) == DecCounted(count, more)
  {
  }

  lemma ParamListReads(ps: Parameters, p: Bytes, rest: Bytes)
    requires IsParamList(p, ps)
    ensures DecParameters(p + rest) == Ok((ps, rest))
  {
    var k := IsFirst(IntL(|ps|), PairForms(0, ps), p);
    IntFirst(p, k, |ps|, rest);
    ParametersFrom(p + rest, |ps|, p[k..] + rest);
    PairListReads(ps, p[k..], rest);
  }

  lemma PairListReads(ps: Parameters, p: Bytes, rest: Bytes)
    requires Is(PairForms(0, ps), p)
    ensures DecChain(PairCodec(), 0, |ps|, p + rest) == Ok((ps, rest))
  {
    PairsExact();
    ItemsRead(PairCodec(), PairItem(), 0, ps, p, rest);
  }

  lemma ReadParamList(b: Bytes, ps: Parameters, rest: Bytes)
    requires DecParameters(b) == Ok((ps, rest))
    ensures Splits(b, rest) && IsParamList(Taken(b, rest), ps)
  {
    var (count, more) := GetVarint(b).value;
    ParametersFrom(b, count, more);
    ReadPairs(count, more, ps, rest);
    CountJoins(b, count, more, PairForms(0, ps), rest);
  }

  lemma ReadPairs(count: nat, b: Bytes, ps: Parameters, rest: Bytes)
    requires DecChain(PairCodec(), 0, count, b) == Ok((ps, rest))
    ensures Splits(b, rest) && Is(PairForms(0, ps), Taken(b, rest))
  {
    PairsExact();
    ReadItems(PairCodec(), PairItem(), 0, count, b, ps, rest);
  }

  lemma ExtensionsRead(exts: Extensions, p: Bytes)
    requires Is(PairForms(0, exts), p)
    ensures DecExtensions(p) == Ok(exts)
  {
    PairCodecSound();
    PairsExact();
    AllItemsRead(PairCodec(), PairItem(), 0, exts, p);
  }

  lemma ReadExtensions(b: Bytes, exts: Extensions)
    requires DecExtensions(b) == Ok(exts)
    ensures Is(PairForms(0, exts), b)
  {
    PairCodecSound();
    PairsExact();
    ReadAllItems(PairCodec(), PairItem(), 0, b, exts);
  }

  // ---- Fields ----

  predicate IsPhrase(b: Bytes, x: Bytes) { |x| <= 1024 && ValidUtf8(x) && IsStr(b, x) }
  predicate IsUri(b: Bytes, x: Bytes) { |x| <= 8192 && IsStr(b, x) }

  function PhraseL(x: Bytes): Form { (b: Bytes) => IsPhrase(b, x) }
  function UriL(x: Bytes): Form { (b: Bytes) => IsUri(b, x) }
  function FlagL(flag: bool): Form { (b: Bytes) => b == [if flag then 1 else 0] }

  function OptionL(o: SubscribeOption): Form {
    match o case PublishOnly => IntL(0) case NamespaceOnly => IntL(1) case Both => IntL(2)
  }

  ghost function FieldL(f: Field): Form {
    match f
    case Number(n) => IntL(n)
    case Name(x) => StrL(x)
    case Uri(x) => UriL(x)
    case Reason(x) => PhraseL(x)
    case Space(ns) => TupleL(1, ns)
    case Prefix(ns) => TupleL(0, ns)
    case Flag(flag) => FlagL(flag)
    case Options(o) => OptionL(o)
    case Params(ps) => ParamListL(ps)
    case Exts(exts) => PairsL(exts)
  }

  lemma BoundedReads(limit: nat, x: Bytes, p: Bytes, rest: Bytes)
    requires IsStr(p, x) && |x| <= limit
    ensures GetBounded(limit, p + rest) == Ok((x, rest))
  {
    StrReads(p, x, rest);
    var head := p[..|p| - |x|];
    assert p + rest == head + (x + rest);
    IntReads(head, |x|, x + rest);
  }

  lemma ReadBounded(limit: nat, b: Bytes)
    requires GetBounded(limit, b).Ok?
    ensures var (x, rest) := GetBounded(limit, b).value;
            Splits(b, rest) && IsStr(Taken(b, rest), x) && |x| <= limit
  {
    assert GetPrefixed(b).Ok?;
    ReadStr(b);
  }

  lemma OptionReads(o: SubscribeOption, p: Bytes, rest: Bytes)
    requires OptionL(o)(p)
    ensures DecOptions(p + rest) == Ok((Options(o), rest))
  {
    IntReads(p, OptionCode(o), rest);
  }

  lemma FieldReads(f: Field, p: Bytes, rest: Bytes)
    requires FieldL(f)(p) && (f.Exts? ==> rest == [])
    ensures DecField(KindOf(f), p + rest) == Ok((f, rest))
  {
    if f.Params? || f.Exts? || f.Space? || f.Prefix? {
      ListReads(f, p, rest);
    } else {
      SimpleReads(f, p, rest);
    }
  }

  lemma ListReads(f: Field, p: Bytes, rest: Bytes)
    requires FieldL(f)(p) && (f.Exts? ==> rest == []) && (f.Params? || f.Exts? || f.Space? || f.Prefix?)
    ensures DecField(KindOf(f), p + rest) == Ok((f, rest))
  {
    if f.Exts? {
      ExtsReads(f.exts, p);
      assert p + rest == p;
    } else if f.Params? {
      ParamsReads(f.params, p, rest);
    } else if f.Space? {
      SpaceReads(f.ns, p, rest);
    } else {
      PrefixReads(f.prefix, p, rest);
    }
  }

  lemma SpaceReads(ns: Namespace, p: Bytes, rest: Bytes)
    requires TupleL(1, ns)(p)
    ensures DecField(KSpace, p + rest) == Ok((Space(ns), rest))
  {
    TupleReads(1, ns, p, rest);
  }

  lemma PrefixReads(ns: Namespace, p: Bytes, rest: Bytes)
    requires TupleL(0, ns)(p)
    ensures DecField(KPrefix, p + rest) == Ok((Prefix(ns), rest))
  {
    TupleReads(0, ns, p, rest);
  }

  lemma ParamsReads(ps: Parameters, p: Bytes, rest: Bytes)
    requires ParamListL(ps)(p)
    ensures DecField(KParams, p + rest) == Ok((Params(ps), rest))
  {
    ParamListReads(ps, p, rest);
  }

  lemma ExtsReads(exts: Extensions, p: Bytes)
    requires PairsL(exts)(p)
    ensures DecField(KExts, p) == Ok((Exts(exts), []))
  {
    ExtensionsRead(exts, p);
  }

  lemma SimpleReads(f: Field, p: Bytes, rest: Bytes)
    requires FieldL(f)(p) && !f.Params? && !f.Exts? && !f.Space? && !f.Prefix?
    ensures DecField(KindOf(f), p + rest) == Ok((f, rest))
  {
    match f
    case Number(n) => IntReads(p, n, rest);
    case Name(x) => StrReads(p, x, rest);
    case Uri(x) => BoundedReads(8192, x, p, rest);
    case Reason(x) => BoundedReads(1024, x, p, rest);
    case Flag(flag) => assert (p + rest)[1..] == rest;
    case Options(o) => OptionReads(o, p, rest);
  }

  lemma ReadField(k: Kind, b: Bytes)
    requires DecField(k, b).Ok?
    ensures TakesField(k, DecField(k, b).value.0, b, DecField(k, b).value.1)
  {
    if k == KParams || k == KExts || k == KSpace || k == KPrefix {
      ReadList(k, b);
    } else {
      ReadSimple(k, b);
    }
  }

  lemma ReadList(k: Kind, b: Bytes)
    requires DecField(k, b).Ok? && (k == KParams || k == KExts || k == KSpace || k == KPrefix)
    ensures TakesField(k, DecField(k, b).value.0, b, DecField(k, b).value.1)
  {
    if k == KSpace {
      ReadSpace(b);
    } else if k == KPrefix {
      ReadPrefix(b);
    } else if k == KParams {
      ReadParams(b);
    } else {
      ReadExts(b);
    }
  }

  lemma ReadSpace(b: Bytes)
    requires DecField(KSpace, b).Ok?
    ensures TakesField(KSpace, DecField(KSpace, b).value.0, b, DecField(KSpace, b).value.1)
  {
    var (ns, rest) := DecNamespace(1, b).value;
    ReadTuple(1, b, ns, rest);
    TakesTuple(b, 1, ns, rest);
  }

  lemma ReadPrefix(b: Bytes)
    requires DecField(KPrefix, b).Ok?
    ensures TakesField(KPrefix, DecField(KPrefix, b).value.0, b, DecField(KPrefix, b).value.1)
  {
    var (ns, rest) := DecNamespace(0, b).value;
    ReadTuple(0, b, ns, rest);
    TakesTuple(b, 0, ns, rest);
  }

  lemma TakesTuple(b: Bytes, least: nat, ns: Namespace, rest: Bytes)
    requires Splits(b, rest) && IsTuple(Taken(b, rest), least, ns)
    ensures least == 1 ==> TakesField(KSpace, Space(ns), b, rest)
    ensures least == 0 ==> TakesField(KPrefix, Prefix(ns), b, rest)
  {
    assert TupleL(least, ns)(Taken(b, rest));
  }

  lemma ReadParams(b: Bytes)
    requires DecField(KParams, b).Ok?
    ensures TakesField(KParams, DecField(KParams, b).value.0, b, DecField(KParams, b).value.1)
  {
    var (ps, rest) := DecParameters(b).value;
    ReadParamList(b, ps, rest);
    TakesParams(b, ps, rest);
  }

  lemma TakesParams(b: Bytes, ps: Parameters, rest: Bytes)
    requires Splits(b, rest) && IsParamList(Taken(b, rest), ps)
    ensures TakesField(KParams, Params(ps), b, rest)
  {
    assert ParamListL(ps)(Taken(b, rest));
  }

  lemma ReadExts(b: Bytes)
    requires DecField(KExts, b).Ok?
    ensures TakesField(KExts, DecField(KExts, b).value.0, b, DecField(KExts, b).value.1)
  {
    ReadExtensions(b, DecExtensions(b).value);
    TakesExts(b, DecExtensions(b).value);
  }

  lemma TakesExts(b: Bytes, exts: Extensions)
    requires Is(PairForms(0, exts), b)
    ensures TakesField(KExts, Exts(exts), b, [])
  {
    assert Taken(b, []) == b && PairsL(exts)(b);
  }

  lemma ReadSimple(k: Kind, b: Bytes)
    requires DecField(k, b).Ok? && k != KParams && k != KExts && k != KSpace && k != KPrefix
    ensures TakesField(k, DecField(k, b).value.0, b, DecField(k, b).value.1)
  {
    if k == KFlag {
      assert b == [b[0]] + b[1..] && Taken(b, b[1..]) == [b[0]];
    } else if k == KNumber || k == KOptions {
      ReadInt(b);
    } else {
      ReadString(k, b);
    }
  }

  lemma ReadString(k: Kind, b: Bytes)
    requires DecField(k, b).Ok? && (k == KName || k == KUri || k == KReason)
    ensures TakesField(k, DecField(k, b).value.0, b, DecField(k, b).value.1)
  {
    match k
    case KName => ReadStr(b);
    case KUri => ReadBounded(8192, b);
    case KReason => ReadBounded(1024, b);
  }

  ghost predicate TakesField(k: Kind, f: Field, b: Bytes, rest: Bytes) {
    KindOf(f) == k && Splits(b, rest) && FieldL(f)(Taken(b, rest)) && (k == KExts ==> rest == [])
  }

  // ---- Payloads ----

  ghost function FieldForms(form: Field -> Form, fs: seq<Field>): seq<Form> {
    seq(|fs|, i requires 0 <= i < |fs| => form(fs[i]))
  }

  /** The reader of one field takes exactly its form. */
  ghost predicate ExactFields(dec: (Kind, Bytes) -> Result<(Field, Bytes)>, form: Field -> Form) {
    && (forall k, b :: dec(k, b).Ok? ==> TakesForm(form, k, dec(k, b).value.0, b, dec(k, b).value.1))
    && (forall f, p, rest :: form(f)(p) && (f.Exts? ==> rest == []) ==> dec(KindOf(f), p + rest) == Ok((f, rest)))
  }

  predicate TakesForm(form: Field -> Form, k: Kind, f: Field, b: Bytes, rest: Bytes) {
    KindOf(f) == k && Splits(b, rest) && form(f)(Taken(b, rest)) && (k == KExts ==> rest == [])
  }

  lemma FormsSplit(form: Field -> Form, fs: seq<Field>, p: Bytes) returns (k: nat)
    requires fs != [] && Is(FieldForms(form, fs), p)
    ensures k <= |p| && form(fs[0])(p[..k]) && Is(FieldForms(form, fs[1..]), p[k..])
  {
    var forms := FieldForms(form, fs);
    assert forms[1..] == FieldForms(form, fs[1..]);
    k :| k <= |p| && forms[0](p[..k]) && Is(forms[1..], p[k..]);
  }

  lemma FormReads(dec: (Kind, Bytes) -> Result<(Field, Bytes)>, form: Field -> Form, f: Field, p: Bytes, rest: Bytes)
    requires ExactFields(dec, form) && form(f)(p) && (f.Exts? ==> rest == [])
    ensures dec(KindOf(f), p + rest) == Ok((f, rest))
  {
  }

  lemma AllFrom(dec: (Kind, Bytes) -> Result<(Field, Bytes)>, fs: seq<Field>, b: Bytes, more: Bytes)
    requires fs != [] && dec(KindOf(fs[0]), b) == Ok((fs[0], more))
    requires DecAll(dec, Kinds(fs[1..]), more) == Ok((fs[1..], []))
    ensures DecAll(dec, Kinds(fs), b) == Ok((fs, []))
  {
    assert Kinds(fs)[1..] == Kinds(fs[1..]);
    assert [fs[0]] + fs[1..] == fs;
  }

  lemma NothingAfterExts(form: Field -> Form, fs: seq<Field>, b: Bytes)
    requires fs != [] && ExtsLast(Kinds(fs)) && Is(FieldForms(form, fs[1..]), b)
    ensures ExtsLast(Kinds(fs[1..])) && (fs[0].Exts? ==> b == [])
  {
    assert Kinds(fs)[1..] == Kinds(fs[1..]);
    assert fs[0].Exts? ==> fs[1..] == [];
  }

  lemma {:induction false} AllRead(dec: (Kind, Bytes) -> Result<(Field, Bytes)>, form: Field -> Form, fs: seq<Field>,
                                   p: Bytes)
    requires ExactFields(dec, form) && Is(FieldForms(form, fs), p) && ExtsLast(Kinds(fs))
    ensures DecAll(dec, Kinds(fs), p) == Ok((fs, []))
    decreases |fs|
  {
    if fs != [] {
      var k := FormsSplit(form, fs, p);
      NothingAfterExts(form, fs, p[k..]);
      FormReads(dec, form, fs[0], p[..k], p[k..]);
      assert p == p[..k] + p[k..];
      AllRead(dec, form, fs[1..], p[k..]);
      AllFrom(dec, fs, p, p[k..]);
    }
  }

  lemma AllStep(dec: (Kind, Bytes) -> Result<(Field, Bytes)>, kinds: seq<Kind>, b: Bytes, fs: seq<Field>, rest: Bytes)
    requires kinds != [] && DecAll(dec, kinds, b) == Ok((fs, rest))
    ensures fs != [] && dec(kinds[0], b).Ok? && dec(kinds[0], b).value.0 == fs[0]
    ensures DecAll(dec, kinds[1..], dec(kinds[0], b).value.1) == Ok((fs[1..], rest))
  {
    var (f, more) := dec(kinds[0], b).value;
    var gs := DecAll(dec, kinds[1..], more).value.0;
    assert ([f] + gs)[1..] == gs;
  }

  lemma FormsCons(form: Field -> Form, k: Kind, fs: seq<Field>, b: Bytes, more: Bytes, rest: Bytes)
    requires fs != [] && TakesForm(form, k, fs[0], b, more) && Splits(more, rest)
    requires Is(FieldForms(form, fs[1..]), Taken(more, rest))
    ensures Splits(b, rest) && Is(FieldForms(form, fs), Taken(b, rest))
  {
    TakenBoth(b, more, rest);
    IsCons(form(fs[0]), FieldForms(form, fs[1..]), Taken(b, more), Taken(more, rest));
    assert FieldForms(form, fs) == [form(fs[0])] + FieldForms(form, fs[1..]);
  }

  lemma {:induction false} ReadAll(dec: (Kind, Bytes) -> Result<(Field, Bytes)>, form: Field -> Form,
                                   kinds: seq<Kind>, b: Bytes, fs: seq<Field>, rest: Bytes)
    requires ExactFields(dec, form) && DecAll(dec, kinds, b) == Ok((fs, rest))
    ensures Splits(b, rest) && Is(FieldForms(form, fs), Taken(b, rest))
    decreases |kinds|
  {
    if kinds != [] {
      AllStep(dec, kinds, b, fs, rest);
      var more := dec(kinds[0], b).value.1;
      assert TakesForm(form, kinds[0], fs[0], b, more);
      ReadAll(dec, form, kinds[1..], more, fs[1..], rest);
      FormsCons(form, kinds[0], fs, b, more, rest);
    }
  }

  // ---- Messages ----

  /** The payload, form by form. */
  ghost function Forms(m: ControlMessage): seq<Form> {
    match m
    case RequestUpdate(id, existing, ps) => [IntL(id), IntL(existing), ParamListL(ps)]
    case Subscribe(id, ns, name, ps) => [IntL(id), TupleL(1, ns), StrL(name), ParamListL(ps)]
    case SubscribeOk(id, alias, ps, exts) => [IntL(id), IntL(alias), ParamListL(ps), PairsL(exts)]
    case RequestError(id, code, retry, reason) => [IntL(id), IntL(code), IntL(retry), PhraseL(reason)]
    case PublishNamespace(id, ns, ps) => [IntL(id), TupleL(1, ns), ParamListL(ps)]
    case RequestOk(id, ps) => [IntL(id), ParamListL(ps)]
    case NamespaceMsg(suffix) => [TupleL(0, suffix)]
    case PublishNamespaceDone(id) => [IntL(id)]
    case Unsubscribe(id) => [IntL(id)]
    case PublishDone(id, status, count, reason) => [IntL(id), IntL(status), IntL(count), PhraseL(reason)]
    case PublishNamespaceCancel(id, code, reason) => [IntL(id), IntL(code), PhraseL(reason)]
    case TrackStatus(id, ns, name, ps) => [IntL(id), TupleL(1, ns), StrL(name), ParamListL(ps)]
    case NamespaceDone(suffix) => [TupleL(0, suffix)]
    case Goaway(uri) => [UriL(uri)]
    case SubscribeNamespace(id, prefix, o, ps) => [IntL(id), TupleL(0, prefix), OptionL(o), ParamListL(ps)]
    case MaxRequestId(n) => [IntL(n)]
    case Fetch(id, Standalone(ns, name, start, end), ps) =>
      [IntL(id), IntL(1), TupleL(1, ns), StrL(name), IntL(start.group), IntL(start.object_), IntL(end.group),
       IntL(end.object_), ParamListL(ps)]
    case Fetch(id, RelativeJoining(other, start), ps) => [IntL(id), IntL(2), IntL(other), IntL(start), ParamListL(ps)]
    case Fetch(id, AbsoluteJoining(other, start), ps) => [IntL(id), IntL(3), IntL(other), IntL(start), ParamListL(ps)]
    case FetchCancel(id) => [IntL(id)]
    case FetchOk(id, last, end, ps, exts) =>
      [IntL(id), FlagL(last), IntL(end.group), IntL(end.object_), ParamListL(ps), PairsL(exts)]
    case RequestsBlocked(n) => [IntL(n)]
    case Publish(id, ns, name, alias, ps, exts) =>
      [IntL(id), TupleL(1, ns), StrL(name), IntL(alias), ParamListL(ps), PairsL(exts)]
    case PublishOk(id, ps) => [IntL(id), ParamListL(ps)]
    case ClientSetup(ps) => [ParamListL(ps)]
    case ServerSetup(ps) => [ParamListL(ps)]
  }

  /** Type, length in two bytes, payload. */
  ghost predicate IsMessage(w: Bytes, m: ControlMessage) {
    exists k: nat :: IsFramed(w, k, Code(m)) && Is(Forms(m), w[k + 2..])
  }

  /** The type takes k bytes, and what follows the length is as long as that says. */
  predicate IsFramed(w: Bytes, k: nat, code: nat) {
    k + 2 <= |w| && IsInt(w[..k], code) && 0x100 * (w[k] as int) + w[k + 1] == |w| - k - 2
  }

  ghost function FieldItem(): Field -> Form { (f: Field) => FieldL(f) }

  lemma FieldsExact()
    ensures ExactFields(DecField, FieldItem())
  {
    forall k, b | DecField(k, b).Ok?
      ensures TakesForm(FieldItem(), k, DecField(k, b).value.0, b, DecField(k, b).value.1)
    {
      ReadField(k, b);
    }
    forall f: Field, p: Bytes, rest: Bytes | FieldItem()(f)(p) && (f.Exts? ==> rest == [])
      ensures DecField(KindOf(f), p + rest) == Ok((f, rest))
    {
      FieldReads(f, p, rest);
    }
  }

  lemma FormsAre(m: ControlMessage)
    ensures FieldForms(FieldItem(), Fields(m)) == Forms(m)
  {
    if |Forms(m)| <= 3 { FewForms(m); } else if m.Fetch? { FetchForms(m); } else { ManyForms(m); }
  }

  lemma FewForms(m: ControlMessage)
    requires |Forms(m)| <= 3
    ensures FieldForms(FieldItem(), Fields(m)) == Forms(m)
  {
  }

  lemma ManyForms(m: ControlMessage)
    requires |Forms(m)| > 3 && !m.Fetch?
    ensures FieldForms(FieldItem(), Fields(m)) == Forms(m)
  {
  }

  lemma FetchForms(m: ControlMessage)
    requires m.Fetch?
    ensures FieldForms(FieldItem(), Fields(m)) == Forms(m)
  {
  }

  lemma FrameReads(w: Bytes, k: nat, code: nat, rest: Bytes)
    requires IsFramed(w, k, code)
    ensures Frame(w + rest) == Ok((code, w[k + 2..], rest))
  {
    var head, payload := w[..k], w[k + 2..];
    var after := [w[k], w[k + 1]] + (payload + rest);
    assert w + rest == head + after;
    IntReads(head, code, after);
    assert after[2..] == payload + rest;
    BytesBack(payload, rest);
  }

  lemma FramedParts(head: Bytes, code: nat, hi: Byte, lo: Byte, payload: Bytes)
    requires IsInt(head, code) && 0x100 * (hi as int) + lo == |payload|
    ensures var w := head + ([hi, lo] + payload);
            IsFramed(w, |head|, code) && w[|head| + 2..] == payload
  {
    var w := head + ([hi, lo] + payload);
    assert w[..|head|] == head && w[|head| + 2..] == payload;
  }

  lemma FrameParts(b: Bytes, head: Bytes, hi: Byte, lo: Byte, payload: Bytes, rest: Bytes)
    requires b == head + ([hi, lo] + (payload + rest))
    ensures Splits(b, rest) && Taken(b, rest) == head + ([hi, lo] + payload)
  {
    assert b == head + ([hi, lo] + payload) + rest;
  }

  /** A complete message, and the length of its type. */
  lemma ReadFrame(b: Bytes) returns (k: nat)
    requires Frame(b).Ok?
    ensures var (code, payload, rest) := Frame(b).value;
            Splits(b, rest) && IsFramed(Taken(b, rest), k, code) && Taken(b, rest)[k + 2..] == payload
  {
    ReadInt(b);
    var (code, b1) := GetVarint(b).value;
    var head := Taken(b, b1);
    ReadLength(b, head, b1, code);
    k := |head|;
  }

  lemma ReadLength(b: Bytes, head: Bytes, b1: Bytes, code: nat)
    requires Frame(b).Ok? && GetVarint(b) == Ok((code, b1)) && b == head + b1 && IsInt(head, code)
    ensures var (payload, rest) := (Frame(b).value.1, Frame(b).value.2);
            Splits(b, rest) && IsFramed(Taken(b, rest), |head|, code) && Taken(b, rest)[|head| + 2..] == payload
  {
    var (hi, lo, b2) := (b1[0], b1[1], b1[2..]);
    var (payload, rest) := (Frame(b).value.1, Frame(b).value.2);
    assert b2 == payload + rest;
    assert b1 == [hi, lo] + b2;
    FrameParts(b, head, hi, lo, payload, rest);
    FramedParts(head, code, hi, lo, payload);
  }

  // ---- What the decoder accepts ----

  lemma FieldsLast(m: ControlMessage)
    ensures ExtsLast(Kinds(Fields(m)))
  {
    if m.Fetch? {
      FetchLast(m);
    } else {
      FieldsDetermine(m);
      LayoutLast(MessageType(m));
    }
  }

  lemma LayoutLast(code: nat)
    ensures Layout(code).Some? ==> ExtsLast(Layout(code).value)
  {
  }

  lemma FetchLast(m: ControlMessage)
    requires m.Fetch?
    ensures ExtsLast(Kinds(Fields(m)))
  {
    assert forall i :: 0 <= i < |Fields(m)| ==> !Fields(m)[i].Exts?;
  }

  lemma PayloadReads(m: ControlMessage, p: Bytes)
    requires Is(Forms(m), p)
    ensures DecPayload(MessageType(m), p) == Ok((Fields(m), []))
  {
    FormsAre(m);
    FieldsExact();
    FieldsDetermine(m);
    FieldsLast(m);
    AllRead(DecField, FieldItem(), Fields(m), p);
    if m.Fetch? { FetchReads(Fields(m), p); }
  }

  lemma {:induction false} ReadCount(dec: (Kind, Bytes) -> Result<(Field, Bytes)>, kinds: seq<Kind>, b: Bytes)
    requires DecAll(dec, kinds, b).Ok?
    ensures |DecAll(dec, kinds, b).value.0| == |kinds|
    decreases |kinds|
  {
    if kinds != [] { ReadCount(dec, kinds[1..], dec(kinds[0], b).value.1); }
  }

  /** A list read is read in two parts. */
  lemma SplitRead(dec: (Kind, Bytes) -> Result<(Field, Bytes)>, ks: seq<Kind>, ls: seq<Kind>, b: Bytes,
                  fs: seq<Field>) returns (rest: Bytes)
    requires DecAll(dec, ks + ls, b) == Ok((fs, []))
    ensures |ks| <= |fs| && DecAll(dec, ks, b) == Ok((fs[..|ks|], rest))
    ensures DecAll(dec, ls, rest) == Ok((fs[|ks|..], []))
  {
    AllSplit(dec, ks, ls, b);
    var (head, more) := DecAll(dec, ks, b).value;
    ReadCount(dec, ks, b);
    rest := more;
    var tail := DecAll(dec, ls, rest).value.0;
    assert fs == head + tail;
    assert fs[..|ks|] == head && fs[|ks|..] == tail;
  }

  /** A FETCH read as one list is read in its two parts. */
  lemma FetchReads(fs: seq<Field>, p: Bytes)
    requires Shaped(MSG_FETCH, fs) && DecFields(Kinds(fs), p) == Ok((fs, []))
    ensures DecFetch(p) == Ok((fs, []))
  {
    var head, more := [KNumber, KNumber], Kinds(fs[2..]);
    assert Kinds(fs) == head + more;
    var rest := SplitRead(DecField, head, more, p, fs);
    FormOfHead(fs);
    FetchAfterHead(p, fs[..2], rest);
    assert fs[..2] + fs[2..] == fs;
  }

  lemma FormOfHead(fs: seq<Field>)
    requires Shaped(MSG_FETCH, fs)
    ensures FormOf(fs[..2]) == Some(Kinds(fs[2..]))
  {
  }

  lemma ReadPayload(code: nat, b: Bytes, fs: seq<Field>)
    requires DecPayload(code, b) == Ok((fs, []))
    ensures Is(FieldForms(FieldItem(), fs), b)
  {
    FieldsExact();
    assert Taken(b, []) == b;
    if code == MSG_FETCH {
      var (head, rest) := DecFields([KNumber, KNumber], b).value;
      var more := FormOf(head).value;
      AllSplit(DecField, [KNumber, KNumber], more, b);
      ReadAll(DecField, FieldItem(), [KNumber, KNumber] + more, b, fs, []);
    } else {
      ReadAll(DecField, FieldItem(), Layout(code).value, b, fs, []);
    }
  }

  lemma BodyAccepts(code: nat, p: Bytes, m: ControlMessage)
    ensures DecBody(code, p) == Ok(m) <==> code == Code(m) && Is(Forms(m), p)
  {
    CodeIs(m);
    if DecBody(code, p) == Ok(m) { BodyIs(code, p, m); }
    if code == Code(m) && Is(Forms(m), p) { BodyReads(p, m); }
  }

  lemma BodyIs(code: nat, p: Bytes, m: ControlMessage)
    requires DecBody(code, p) == Ok(m)
    ensures code == MessageType(m) && Is(Forms(m), p)
  {
    var fs := DecPayload(code, p).value.0;
    PayloadShrinks(code, p);
    BuildKeepsFields(code, fs);
    ReadPayload(code, p, fs);
    FormsAre(m);
  }

  lemma BodyReads(p: Bytes, m: ControlMessage)
    requires Is(Forms(m), p)
    ensures DecBody(MessageType(m), p) == Ok(m)
  {
    PayloadReads(m, p);
    FieldsDetermine(m);
  }

  lemma FramedIs(body: (nat, Bytes) -> Result<ControlMessage>, x: Result<(nat, Bytes, Bytes)>, size: nat,
                 m: ControlMessage, n: nat)
    requires x.Ok? ==> |x.value.2| <= size
    ensures Framed(body, x, size) == Ok((m, n))
       <==> x.Ok? && body(x.value.0, x.value.1) == Ok(m) && n == size - |x.value.2|
  {
  }

  /** The decoder takes n bytes for message m exactly when those n bytes are m written out, with any length of
      its integers: so it accepts nothing else, and nothing that follows matters. */
  lemma AcceptsIff(b: Bytes, m: ControlMessage, n: nat)
    ensures DecMessage(b) == Ok((m, n)) <==> n <= |b| && IsMessage(b[..n], m)
  {
    if Frame(b).Ok? { BodyAccepts(Frame(b).value.0, Frame(b).value.1, m); }
    FramesAccept(DecBody, b, m, n);
  }

  lemma FramesAccept(body: (nat, Bytes) -> Result<ControlMessage>, b: Bytes, m: ControlMessage, n: nat)
    requires Frame(b).Ok? ==> var (code, p, _) := Frame(b).value;
                              body(code, p) == Ok(m) <==> code == Code(m) && Is(Forms(m), p)
    ensures Framed(body, Frame(b), |b|) == Ok((m, n)) <==> n <= |b| && IsMessage(b[..n], m)
  {
    FramedIs(body, Frame(b), |b|, m, n);
    if Frame(b).Ok? && Frame(b).value.0 == Code(m) && Is(Forms(m), Frame(b).value.1) {
      var k := ReadFrame(b);
      assert IsMessage(b[..|b| - |Frame(b).value.2|], m);
    }
    if n <= |b| && IsMessage(b[..n], m) {
      assert b == b[..n] + b[n..];
      MessageFramed(b[..n], m, b[n..]);
    }
  }

  lemma MessageFramed(w: Bytes, m: ControlMessage, rest: Bytes)
    requires IsMessage(w, m)
    ensures Frame(w + rest).Ok? && Frame(w + rest).value.2 == rest
    ensures Frame(w + rest).value.0 == Code(m) && Is(Forms(m), Frame(w + rest).value.1)
  {
    var k: nat :| IsFramed(w, k, Code(m)) && Is(Forms(m), w[k + 2..]);
    FrameReads(w, k, Code(m), rest);
  }
}
