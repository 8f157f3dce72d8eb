/** A message payload is a list of fields, written and read one after the other. */
module CodecFields {
  import opened MoqTypes
  import opened Utf8
  import opened CodecErrors
  import opened CodecKeyValues
  import opened CodecNames

  const MAX_GOAWAY_URI_BYTES: nat := 8192

  datatype Field =
    | Number(n: nat)
    | Name(name: Bytes)
    | Uri(uri: Bytes)
    | Reason(text: Bytes)
    | Space(ns: Namespace)
    | Prefix(prefix: Namespace)
    | Flag(flag: bool)
    | Options(option: SubscribeOption)
    | Params(params: Parameters)
    | Exts(exts: Extensions)

  datatype Kind = KNumber | KName | KUri | KReason | KSpace | KPrefix | KFlag | KOptions | KParams | KExts

  function KindOf(f: Field): Kind {
    match f
    case Number(_) => KNumber
    case Name(_) => KName
    case Uri(_) => KUri
    case Reason(_) => KReason
    case Space(_) => KSpace
    case Prefix(_) => KPrefix
    case Flag(_) => KFlag
    case Options(_) => KOptions
    case Params(_) => KParams
    case Exts(_) => KExts
  }

  function OptionCode(o: SubscribeOption): nat {
    match o case PublishOnly => 0 case NamespaceOnly => 1 case Both => 2
  }

  function EncField(f: Field): Result<Bytes> {
    match f
    case Number(n) => PutVarint(n)
    case Name(b) => PutPrefixed(b)
    case Uri(b) => PutPrefixed(b)
    case Reason(b) => EncReason(b)
    case Space(ns) => EncNamespace(ns)
    case Prefix(ns) => EncNamespace(ns)
    case Flag(flag) => Ok([if flag then 1 else 0])
    case Options(o) => PutVarint(OptionCode(o))
    case Params(ps) => EncParameters(ps)
    case Exts(exts) => EncPairs(exts)
  }

  function DecFlag(b: Bytes): Result<(Field, Bytes)> {
    var (x, rest) :- GetByte(b);
    if x == 0 then Ok((Flag(false), rest)) else if x == 1 then Ok((Flag(true), rest)) else Err(ProtocolViolation)
  }

  function DecOptions(b: Bytes): Result<(Field, Bytes)> {
    var (x, rest) :- GetVarint(b);
    if x == 0 then Ok((Options(PublishOnly), rest))
    else if x == 1 then Ok((Options(NamespaceOnly), rest))
    else if x == 2 then Ok((Options(Both), rest))
    else Err(InvalidValue)
  }

  function DecField(k: Kind, b: Bytes): Result<(Field, Bytes)> {
    match k
    case KNumber => var (n, rest) :- GetVarint(b); Ok((Number(n), rest))
    case KName => var (x, rest) :- GetPrefixed(b); Ok((Name(x), rest))
    case KUri => var (x, rest) :- GetBounded(MAX_GOAWAY_URI_BYTES, b); Ok((Uri(x), rest))
    case KReason => var (x, rest) :- DecReason(b); Ok((Reason(x), rest))
    case KSpace => var (ns, rest) :- DecNamespace(1, b); Ok((Space(ns), rest))
    case KPrefix => var (ns, rest) :- DecNamespace(0, b); Ok((Prefix(ns), rest))
    case KFlag => DecFlag(b)
    case KOptions => DecOptions(b)
    case KParams => var (ps, rest) :- DecParameters(b); Ok((Params(ps), rest))
    case KExts => var exts :- DecExtensions(b); Ok((Exts(exts), []))
  }

  /** Reason phrases are strings, keys are 64-bit numbers, parameters are a vector. */
  predicate Typed(f: Field) {
    match f
    case Reason(b) => ValidUtf8(b)
    case Params(ps) => KeysFit(ps) && VectorHolds(|ps|)
    case Exts(exts) => KeysFit(exts)
    case _ => true
  }

  /** What the decoder demands beyond what the encoder checks. */
  predicate FieldOk(f: Field) {
    match f
    case Uri(b) => |b| <= MAX_GOAWAY_URI_BYTES
    case Space(ns) => NamespaceOk(1, ns)
    case Prefix(ns) => NamespaceOk(0, ns)
    case _ => true
  }

  /** The encoder sorts parameters. */
  function Canon(f: Field): Field {
    if f.Params? then Params(Sorted(f.params)) else f
  }

  lemma OptionsBack(o: SubscribeOption, rest: Bytes)
    requires PutVarint(OptionCode(o)).Ok?
    ensures DecOptions(PutVarint(OptionCode(o)).value + rest) == Ok((Options(o), rest))
  {
    VarintBack(OptionCode(o), rest);
  }

  lemma StringBack(f: Field, rest: Bytes)
    requires (f.Name? || f.Uri? || f.Reason?) && Typed(f) && EncField(f).Ok?
    ensures DecField(KindOf(f), EncField(f).value + rest)
            == if FieldOk(f) then Ok((f, rest)) else Err(ProtocolViolation)
  {
    match f
    case Name(b) => PrefixedBack(b, rest);
    case Uri(b) => BoundedBack(MAX_GOAWAY_URI_BYTES, b, rest);
    case Reason(b) => BoundedBack(MAX_REASON_PHRASE_BYTES, b, rest);
  }

  lemma SpaceBack(f: Field, rest: Bytes)
    requires (f.Space? || f.Prefix?) && EncField(f).Ok?
    ensures DecField(KindOf(f), EncField(f).value + rest)
            == if FieldOk(f) then Ok((f, rest)) else Err(ProtocolViolation)
  {
    match f
    case Space(ns) => NamespaceBack(1, ns, rest);
    case Prefix(ns) => NamespaceBack(0, ns, rest);
  }

  lemma ParamsField(b: Bytes, ps: Parameters, rest: Bytes)
    requires DecParameters(b) == Ok((ps, rest))
    ensures DecField(KParams, b) == Ok((Params(ps), rest))
  {
  }

  lemma ParamsBack(ps: Parameters, rest: Bytes)
    requires KeysFit(ps) && VectorHolds(|ps|) && EncParameters(ps).Ok?
    ensures DecField(KParams, EncParameters(ps).value + rest) == Ok((Params(Sorted(ps)), rest))
  {
    ParametersBack(ps, rest);
    ParamsField(EncParameters(ps).value + rest, Sorted(ps), rest);
  }

  lemma ExtsBack(exts: Extensions)
    requires KeysFit(exts) && EncPairs(exts).Ok?
    ensures DecField(KExts, EncPairs(exts).value + []) == Ok((Exts(exts), []))
  {
    ExtensionsBack(exts);
    assert EncPairs(exts).value + [] == EncPairs(exts).value;
  }

  lemma FieldBack(f: Field, rest: Bytes)
    requires Typed(f) && EncField(f).Ok? && (f.Exts? ==> rest == [])
    ensures DecField(KindOf(f), EncField(f).value + rest)
         == if FieldOk(f) then Ok((Canon(f), rest)) else Err(ProtocolViolation)
  {
    match f
    case Number(n) => VarintBack(n, rest);
    case Flag(flag) =>
    case Options(o) => OptionsBack(o, rest);
    case Params(ps) => ParamsBack(ps, rest);
    case Exts(exts) => ExtsBack(exts);
    case Space(_) => SpaceBack(f, rest);
    case Prefix(_) => SpaceBack(f, rest);
    case _ => StringBack(f, rest);
  }

  lemma FieldShrinks(k: Kind, b: Bytes)
    requires DecField(k, b).Ok?
    ensures var (f, rest) := DecField(k, b).value;
            && KindOf(f) == k && Typed(f) && FieldOk(f) && Canon(f) == f && (k == KExts ==> rest == [])
            && EncField(f).Ok? && |EncField(f).value| + |rest| <= |b|
  {
    match k
    case KNumber => VarintShrinks(b);
    case KName => PrefixedShrinks(b);
    case KUri => BoundedShrinks(MAX_GOAWAY_URI_BYTES, b);
    case KReason => BoundedShrinks(MAX_REASON_PHRASE_BYTES, b);
    case KSpace => NamespaceShrinks(1, b);
    case KPrefix => NamespaceShrinks(0, b);
    case KFlag =>
    case KOptions => VarintShrinks(b);
    case KParams => ParametersShrink(b);
    case KExts => ExtensionsShrink(b);
  }

  // ---- Lists of fields ----

  function EncAll(enc: Field -> Result<Bytes>, fs: seq<Field>): Result<Bytes> {
    if fs == [] then Ok([])
    else
      var first :- enc(fs[0]);
      var rest :- EncAll(enc, fs[1..]);
      Ok(first + rest)
  }

  function DecAll(dec: (Kind, Bytes) -> Result<(Field, Bytes)>, kinds: seq<Kind>, b: Bytes): Result<(seq<Field>, Bytes)>
    decreases |kinds|
  {
    if kinds == [] then Ok(([], b))
    else
      var (f, rest) :- dec(kinds[0], b);
      var (more, after) :- DecAll(dec, kinds[1..], rest);
      Ok(([f] + more, after))
  }

  /** What was read before, and then the rest. */
  function After(head: seq<Field>, r: Result<(seq<Field>, Bytes)>): Result<(seq<Field>, Bytes)> {
    if r.Err? then r else Ok((head + r.value.0, r.value.1))
  }

  function EncFields(fs: seq<Field>): Result<Bytes> { EncAll(EncField, fs) }

  function DecFields(kinds: seq<Kind>, b: Bytes): Result<(seq<Field>, Bytes)> { DecAll(DecField, kinds, b) }

  function Kinds(fs: seq<Field>): (ks: seq<Kind>)
    ensures |ks| == |fs| && forall i :: 0 <= i < |fs| ==> ks[i] == KindOf(fs[i])
  {
    if fs == [] then [] else [KindOf(fs[0])] + Kinds(fs[1..])
  }

  function CanonFields(fs: seq<Field>): (cs: seq<Field>)
    ensures |cs| == |fs| && forall i :: 0 <= i < |fs| ==> cs[i] == Canon(fs[i])
  {
    if fs == [] then [] else [Canon(fs[0])] + CanonFields(fs[1..])
  }

  predicate AllTyped(fs: seq<Field>) { forall i :: 0 <= i < |fs| ==> Typed(fs[i]) }
  predicate AllOk(fs: seq<Field>) { forall i :: 0 <= i < |fs| ==> FieldOk(fs[i]) }

  /** Extensions run to the end of the payload. */
  predicate ExtsLast(kinds: seq<Kind>) {
    forall i :: 0 <= i < |kinds| - 1 ==> kinds[i] != KExts
  }

  predicate Unbounded(kinds: seq<Kind>) { kinds != [] && kinds[|kinds| - 1] == KExts }

  ghost predicate ReadsBack(enc: Field -> Result<Bytes>, dec: (Kind, Bytes) -> Result<(Field, Bytes)>) {
    forall f, rest :: Typed(f) && enc(f).Ok? && (f.Exts? ==> rest == []) ==>
      dec(KindOf(f), enc(f).value + rest) == if FieldOk(f) then Ok((Canon(f), rest)) else Err(ProtocolViolation)
  }

  ghost predicate WritesLess(enc: Field -> Result<Bytes>, dec: (Kind, Bytes) -> Result<(Field, Bytes)>) {
    forall k, b :: dec(k, b).Ok? ==> Rewrites(enc, k, dec(k, b).value.0, dec(k, b).value.1, b)
  }

  predicate Rewrites(enc: Field -> Result<Bytes>, k: Kind, f: Field, rest: Bytes, b: Bytes) {
    && KindOf(f) == k && Typed(f) && FieldOk(f) && Canon(f) == f && (k == KExts ==> rest == [])
    && enc(f).Ok? && |enc(f).value| + |rest| <= |b|
  }

  lemma {:induction false} AllBack(enc: Field -> Result<Bytes>, dec: (Kind, Bytes) -> Result<(Field, Bytes)>,
                                   fs: seq<Field>, rest: Bytes)
    requires ReadsBack(enc, dec)
    requires AllTyped(fs) && EncAll(enc, fs).Ok? && ExtsLast(Kinds(fs)) && (Unbounded(Kinds(fs)) ==> rest == [])
    ensures DecAll(dec, Kinds(fs), EncAll(enc, fs).value + rest)
         == if AllOk(fs) then Ok((CanonFields(fs), rest)) else Err(ProtocolViolation)
    decreases |fs|
  {
    if fs == [] {
      assert [] + rest == rest;
    } else {
      var first, more := enc(fs[0]).value, EncAll(enc, fs[1..]).value;
      assert Kinds(fs)[1..] == Kinds(fs[1..]);
      assert first + more + rest == first + (more + rest);
      assert fs[0].Exts? ==> fs[1..] == [] && more + rest == [];
      assert AllOk(fs) <==> FieldOk(fs[0]) && AllOk(fs[1..]) by { assert fs == [fs[0]] + fs[1..]; }
      AllBack(enc, dec, fs[1..], rest);
    }
  }

  lemma {:induction false} AllShrink(enc: Field -> Result<Bytes>, dec: (Kind, Bytes) -> Result<(Field, Bytes)>,
                                     kinds: seq<Kind>, b: Bytes)
    requires WritesLess(enc, dec) && DecAll(dec, kinds, b).Ok?
    ensures var (fs, rest) := DecAll(dec, kinds, b).value;
            && Kinds(fs) == kinds && AllTyped(fs) && AllOk(fs) && CanonFields(fs) == fs
            && (Unbounded(kinds) ==> rest == [])
            && EncAll(enc, fs).Ok? && |EncAll(enc, fs).value| + |rest| <= |b|
    decreases |kinds|
  {
    if kinds != [] {
      var (f, rest) := dec(kinds[0], b).value;
      assert Rewrites(enc, kinds[0], f, rest, b);
      AllShrink(enc, dec, kinds[1..], rest);
      var (more, after) := DecAll(dec, kinds[1..], rest).value;
      assert ([f] + more)[1..] == more;
      assert [kinds[0]] + kinds[1..] == kinds;
    }
  }

  lemma {:induction false} AllSplit(dec: (Kind, Bytes) -> Result<(Field, Bytes)>, ks: seq<Kind>, ls: seq<Kind>,
                                    b: Bytes)
    ensures DecAll(dec, ks + ls, b)
         == match DecAll(dec, ks, b)
            case Err(e) => Err(e)
            case Ok((head, rest)) => After(head, DecAll(dec, ls, rest))
    decreases |ks|
  {
    if ks == [] {
      assert ks + ls == ls;
      if DecAll(dec, ls, b).Ok? { assert [] + DecAll(dec, ls, b).value.0 == DecAll(dec, ls, b).value.0; }
    } else {
      assert (ks + ls)[1..] == ks[1..] + ls;
      if dec(ks[0], b).Ok? {
        var (f, rest) := dec(ks[0], b).value;
        AllSplit(dec, ks[1..], ls, rest);
        if DecAll(dec, ks, b).Ok? && DecAll(dec, ls, DecAll(dec, ks, b).value.1).Ok? {
          var more, tail := DecAll(dec, ks[1..], rest).value.0, DecAll(dec, ls, DecAll(dec, ks, b).value.1).value.0;
          assert [f] + (more + tail) == [f] + more + tail;
        }
      }
    }
  }

  /** Reading inverts writing, up to the sorting of parameters, exactly on acceptable fields. */
  lemma FieldsBack(fs: seq<Field>, rest: Bytes)
    requires AllTyped(fs) && EncFields(fs).Ok? && ExtsLast(Kinds(fs)) && (Unbounded(Kinds(fs)) ==> rest == [])
    ensures DecFields(Kinds(fs), EncFields(fs).value + rest)
         == if AllOk(fs) then Ok((CanonFields(fs), rest)) else Err(ProtocolViolation)
  {
    forall f, more | Typed(f) && EncField(f).Ok? && (f.Exts? ==> more == [])
      ensures DecField(KindOf(f), EncField(f).value + more)
              == if FieldOk(f) then Ok((Canon(f), more)) else Err(ProtocolViolation)
    {
      FieldBack(f, more);
    }
    AllBack(EncField, DecField, fs, rest);
  }

  /** Fields that were read are acceptable, sorted, and can be written in no more bytes. */
  lemma FieldsShrink(kinds: seq<Kind>, b: Bytes)
    requires DecFields(kinds, b).Ok?
    ensures var (fs, rest) := DecFields(kinds, b).value;
            && Kinds(fs) == kinds && AllTyped(fs) && AllOk(fs) && CanonFields(fs) == fs
            && (Unbounded(kinds) ==> rest == [])
            && EncFields(fs).Ok? && |EncFields(fs).value| + |rest| <= |b|
  {
    forall k, x | DecField(k, x).Ok? ensures Rewrites(EncField, k, DecField(k, x).value.0, DecField(k, x).value.1, x) {
      FieldShrinks(k, x);
    }
    AllShrink(EncField, DecField, kinds, b);
  }
}
