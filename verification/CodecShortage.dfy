/** Where the bytes of a payload end too soon: in the middle of a varint, or of a byte string whose
    length has been announced. No other place makes a reader ask for more bytes. And where a reader
    panics: at a count of parameters for which no vector has room. */
module CodecShortage {
  import opened MoqTypes
  import opened Varint
  import opened CodecErrors
  import opened CodecChains
  import opened CodecKeyValues
  import opened CodecNames
  import opened CodecFields
  import opened CodecMessages
  import opened CodecFraming

  /** The first byte announces more bytes than there are, or is itself missing. */
  predicate VarintCut(b: Bytes) { b == [] || |b| < LenOf(b[0]) }

  /** The length is cut short, or is an allowed one that exceeds what follows it. */
  predicate StringCut(limit: nat, b: Bytes) {
    VarintCut(b) || (var (len, n) := DecVarint(b).value; len <= limit && |b| < n + len)
  }

  /** After a pair with key prev: its key distance, or the value under the key it gives. */
  predicate PairCut(prev: nat, b: Bytes) {
    VarintCut(b)
    || (var (delta, rest) := GetVarint(b).value;
        prev + delta <= MAX_U64
        && if (prev + delta) % 2 == 0 then VarintCut(rest) else StringCut(MAX_KV_VALUE_BYTES, rest))
  }

  predicate PartCut(total: nat, b: Bytes) { StringCut(MAX_VARINT, b) }

  function StateAfter<S(!new), T(!new)>(c: Codec<S, T>, s: S, xs: seq<T>): S
    decreases |xs|
  {
    if xs == [] then s else StateAfter(c, c.next(s, xs[0]), xs[1..])
  }

  /** The first i items are read, and the next one is cut short in what is left. */
  predicate CutAfter<S(!new), T(!new)>(c: Codec<S, T>, cut: (S, Bytes) -> bool, s: S, b: Bytes, i: nat) {
    var r := DecChain(c, s, i, b);
    r.Ok? && cut(StateAfter(c, s, r.value.0), r.value.1)
  }

  ghost predicate ChainCut<S(!new), T(!new)>(c: Codec<S, T>, cut: (S, Bytes) -> bool, s: S, count: nat, b: Bytes) {
    exists i: nat :: i < count && CutAfter(c, cut, s, b, i)
  }

  /** Of a list without a count only what has begun can be cut. */
  ghost predicate RemainingCut<S(!new), T(!new)>(c: Codec<S, T>, cut: (S, Bytes) -> bool, s: S, b: Bytes) {
    exists i: nat :: CutAfter(c, cut, s, b, i) && DecChain(c, s, i, b).value.1 != []
  }

  ghost predicate NamespaceCut(least: nat, b: Bytes) {
    VarintCut(b)
    || (var (count, rest) := GetVarint(b).value;
        least <= count <= MAX_TRACK_NAMESPACE_FIELDS && ChainCut(PartCodec(), PartCut, 0, count, rest))
  }

  ghost predicate ParametersCut(b: Bytes) {
    VarintCut(b)
    || (var (count, rest) := GetVarint(b).value; VectorHolds(count) && ChainCut(PairCodec(), PairCut, 0, count, rest))
  }

  /** A whole varint that counts more pairs than a vector can hold. */
  predicate CountTooLarge(b: Bytes) {
    !VarintCut(b) && !VectorHolds(DecVarint(b).value.0)
  }

  /** A field begins at the head of b and does not end within it. */
  ghost predicate FieldCut(k: Kind, b: Bytes) {
    match k
    case KNumber => VarintCut(b)
    case KName => StringCut(MAX_VARINT, b)
    case KUri => StringCut(MAX_GOAWAY_URI_BYTES, b)
    case KReason => StringCut(MAX_REASON_PHRASE_BYTES, b)
    case KSpace => NamespaceCut(1, b)
    case KPrefix => NamespaceCut(0, b)
    case KFlag => b == []
    case KOptions => VarintCut(b)
    case KParams => ParametersCut(b)
    case KExts => RemainingCut(PairCodec(), PairCut, 0, b)
  }

  /** The first i fields are read, and the next one meets p in what is left. */
  ghost predicate FieldMeets(p: (Kind, Bytes) -> bool, kinds: seq<Kind>, b: Bytes, i: nat)
    requires i < |kinds|
  {
    var r := DecFields(kinds[..i], b);
    r.Ok? && p(kinds[i], r.value.1)
  }

  /** Some field is reached with bytes that meet p. */
  ghost predicate SomeFieldMeets(p: (Kind, Bytes) -> bool, kinds: seq<Kind>, b: Bytes) {
    exists i: nat :: i < |kinds| && FieldMeets(p, kinds, b, i)
  }

  ghost function IsCut(): (Kind, Bytes) -> bool { (k: Kind, b: Bytes) => FieldCut(k, b) }

  function IsOverlong(): (Kind, Bytes) -> bool { (k: Kind, b: Bytes) => k == KParams && CountTooLarge(b) }

  ghost predicate FieldsCut(kinds: seq<Kind>, b: Bytes) { SomeFieldMeets(IsCut(), kinds, b) }

  /** Some field of the layout is reached whose bytes meet p; the layout of FETCH is known once its form is. */
  ghost predicate PayloadMeets(p: (Kind, Bytes) -> bool, code: nat, b: Bytes) {
    if code != MSG_FETCH then Layout(code).Some? && SomeFieldMeets(p, Layout(code).value, b)
    else
      var head := DecFields([KNumber, KNumber], b);
      SomeFieldMeets(p, [KNumber, KNumber], b)
      || (head.Ok? && FormOf(head.value.0).Some? && SomeFieldMeets(p, FormOf(head.value.0).value, head.value.1))
  }

  /** Some field is reached with fewer bytes than it needs. */
  ghost predicate PayloadCut(code: nat, b: Bytes) { PayloadMeets(IsCut(), code, b) }

  /** Some parameter list is reached whose count is complete and too large for any vector. */
  ghost predicate PayloadOverlong(code: nat, b: Bytes) { PayloadMeets(IsOverlong(), code, b) }

  // ---- Readers ask for bytes exactly there ----

  lemma VarintShort(b: Bytes)
    ensures GetVarint(b) == Err(BufferTooShort) <==> VarintCut(b)
    ensures GetVarint(b).Err? ==> GetVarint(b) == Err(BufferTooShort)
    ensures GetVarint(b).Ok? ==> DecVarint(b).Some? && |b| == DecVarint(b).value.1 + |GetVarint(b).value.1|
  {
    if GetVarint(b).Ok? { VarintMinimal(b); }
  }

  lemma BoundedShort(limit: nat, b: Bytes)
    ensures GetBounded(limit, b) == Err(BufferTooShort) <==> StringCut(limit, b)
  {
    VarintShort(b);
  }

  lemma PrefixedShort(b: Bytes)
    ensures GetPrefixed(b) == Err(BufferTooShort) <==> StringCut(MAX_VARINT, b)
  {
    VarintShort(b);
    if DecVarint(b).Some? { VarintMinimal(b); }
  }

  lemma PairShort(prev: nat, b: Bytes)
    ensures DecPair(prev, b) == Err(BufferTooShort) <==> PairCut(prev, b)
  {
    VarintShort(b);
    if GetVarint(b).Ok? { VarintShort(GetVarint(b).value.1); }
  }

  ghost predicate CutsExactly<S(!new), T(!new)>(c: Codec<S, T>, cut: (S, Bytes) -> bool) {
    forall s, b :: cut(s, b) <==> c.dec(s, b) == Err(BufferTooShort)
  }

  /** Passing from the items after the first to all of them. */
  lemma CutShift<S(!new), T(!new)>(c: Codec<S, T>, cut: (S, Bytes) -> bool, s: S, b: Bytes, i: nat)
    requires i > 0
    ensures CutAfter(c, cut, s, b, i)
       <==> c.dec(s, b).Ok? && CutAfter(c, cut, c.next(s, c.dec(s, b).value.0), c.dec(s, b).value.1, i - 1)
    ensures DecChain(c, s, i, b).Ok? ==>
              DecChain(c, s, i, b).value.1
              == DecChain(c, c.next(s, c.dec(s, b).value.0), i - 1, c.dec(s, b).value.1).value.1
  {
    if DecChain(c, s, i, b).Ok? {
      var (x, rest) := c.dec(s, b).value;
      var more := DecChain(c, c.next(s, x), i - 1, rest).value.0;
      assert ([x] + more)[1..] == more;
    }
  }

  lemma {:induction false} ChainShort<S(!new), T(!new)>(c: Codec<S, T>, cut: (S, Bytes) -> bool, s: S, count: nat,
                                                        b: Bytes)
    requires CutsExactly(c, cut)
    ensures DecChain(c, s, count, b) == Err(BufferTooShort) <==> ChainCut(c, cut, s, count, b)
    decreases count
  {
    assert CutAfter(c, cut, s, b, 0) <==> cut(s, b);
    if count > 0 && c.dec(s, b).Ok? {
      var (x, rest) := c.dec(s, b).value;
      ChainShort(c, cut, c.next(s, x), count - 1, rest);
      if i: nat :| i < count && CutAfter(c, cut, s, b, i) {
        CutShift(c, cut, s, b, i);
      }
      if i: nat :| i < count - 1 && CutAfter(c, cut, c.next(s, x), rest, i) {
        CutShift(c, cut, s, b, i + 1);
      }
    } else if count > 0 {
      if i: nat :| i < count && CutAfter(c, cut, s, b, i) {
        if i > 0 { CutShift(c, cut, s, b, i); }
      }
    }
  }

  lemma {:induction false} RemainingShort<S(!new), T(!new)>(c: Codec<S, T>, cut: (S, Bytes) -> bool, s: S, b: Bytes)
    requires Consumes(c) && CutsExactly(c, cut)
    ensures DecRemaining(c, s, b) == Err(BufferTooShort) <==> RemainingCut(c, cut, s, b)
    decreases |b|
  {
    assert CutAfter(c, cut, s, b, 0) <==> cut(s, b);
    if b != [] && c.dec(s, b).Ok? {
      var (x, rest) := c.dec(s, b).value;
      RemainingShort(c, cut, c.next(s, x), rest);
      if i: nat :| CutAfter(c, cut, s, b, i) && DecChain(c, s, i, b).value.1 != [] {
        CutShift(c, cut, s, b, i);
      }
      if i: nat :| CutAfter(c, cut, c.next(s, x), rest, i) && DecChain(c, c.next(s, x), i, rest).value.1 != [] {
        CutShift(c, cut, s, b, i + 1);
      }
    } else {
      if i: nat :| CutAfter(c, cut, s, b, i) && DecChain(c, s, i, b).value.1 != [] {
        if i > 0 {
          CutShift(c, cut, s, b, i);
          NothingLeft(c, s, i, b);
        }
      }
    }
  }

  /** Items take bytes away. */
  lemma {:induction false} NothingLeft<S(!new), T(!new)>(c: Codec<S, T>, s: S, count: nat, b: Bytes)
    requires Consumes(c) && DecChain(c, s, count, b).Ok?
    ensures |DecChain(c, s, count, b).value.1| <= |b|
    decreases count
  {
    if count > 0 {
      var (x, rest) := c.dec(s, b).value;
      NothingLeft(c, c.next(s, x), count - 1, rest);
    }
  }

  lemma PairsCutExactly()
    ensures Consumes(PairCodec()) && CutsExactly(PairCodec(), PairCut)
  {
    PairCodecSound();
    forall prev: nat, b: Bytes ensures PairCut(prev, b) <==> PairCodec().dec(prev, b) == Err(BufferTooShort) {
      PairShort(prev, b);
    }
  }

  lemma PartsCutExactly()
    ensures CutsExactly(PartCodec(), PartCut)
  {
    forall total: nat, b: Bytes ensures PartCut(total, b) <==> PartCodec().dec(total, b) == Err(BufferTooShort) {
      PrefixedShort(b);
    }
  }

  lemma NamespaceShort(least: nat, b: Bytes)
    ensures DecNamespace(least, b) == Err(BufferTooShort) <==> NamespaceCut(least, b)
  {
    VarintShort(b);
    if GetVarint(b).Ok? {
      var (count, rest) := GetVarint(b).value;
      PartsCutExactly();
      ChainShort(PartCodec(), PartCut, 0, count, rest);
    }
  }

  lemma ParametersShort(b: Bytes)
    ensures DecParameters(b) == Err(BufferTooShort) <==> ParametersCut(b)
  {
    VarintShort(b);
    if GetVarint(b).Ok? {
      var (count, rest) := GetVarint(b).value;
      PairsCutExactly();
      ChainShort(PairCodec(), PairCut, 0, count, rest);
    }
  }

  lemma ExtensionsShort(b: Bytes)
    ensures DecExtensions(b) == Err(BufferTooShort) <==> RemainingCut(PairCodec(), PairCut, 0, b)
  {
    PairsCutExactly();
    RemainingShort(PairCodec(), PairCut, 0, b);
  }

  lemma FieldShort(k: Kind, b: Bytes)
    ensures DecField(k, b) == Err(BufferTooShort) <==> FieldCut(k, b)
  {
    match k
    case KNumber => VarintShort(b);
    case KName => PrefixedShort(b);
    case KUri => BoundedShort(MAX_GOAWAY_URI_BYTES, b);
    case KReason => BoundedShort(MAX_REASON_PHRASE_BYTES, b);
    case KSpace => NamespaceShort(1, b);
    case KPrefix => NamespaceShort(0, b);
    case KFlag =>
    case KOptions => VarintShort(b);
    case KParams => ParametersShort(b);
    case KExts => ExtensionsShort(b);
  }

  // ---- Readers of fields fail where the first field fails ----

  /** p tells, of every kind, the bytes on which its reader fails with e. */
  ghost predicate Tells(p: (Kind, Bytes) -> bool, e: Error) {
    forall k, b {:trigger p(k, b)} :: p(k, b) <==> DecField(k, b) == Err(e)
  }

  lemma MeetsShift(p: (Kind, Bytes) -> bool, kinds: seq<Kind>, b: Bytes, i: nat)
    requires 0 < i < |kinds|
    ensures FieldMeets(p, kinds, b, i)
       <==> DecField(kinds[0], b).Ok? && FieldMeets(p, kinds[1..], DecField(kinds[0], b).value.1, i - 1)
  {
    assert kinds[..i][1..] == kinds[1..][..i - 1];
  }

  /** A list of fields fails with e exactly when one of its fields is reached and fails so. */
  lemma {:induction false} FieldsFail(p: (Kind, Bytes) -> bool, e: Error, kinds: seq<Kind>, b: Bytes)
    requires Tells(p, e)
    ensures DecFields(kinds, b) == Err(e) <==> SomeFieldMeets(p, kinds, b)
    decreases |kinds|
  {
    if kinds != [] {
      assert kinds[..0] == [];
      assert FieldMeets(p, kinds, b, 0) <==> p(kinds[0], b);
      if DecField(kinds[0], b).Ok? {
        FieldsFail(p, e, kinds[1..], DecField(kinds[0], b).value.1);
      }
      if i: nat :| i < |kinds| && FieldMeets(p, kinds, b, i) {
        if i > 0 { MeetsShift(p, kinds, b, i); }
      }
      if DecField(kinds[0], b).Ok? {
        var rest := DecField(kinds[0], b).value.1;
        if i: nat :| i < |kinds[1..]| && FieldMeets(p, kinds[1..], rest, i) {
          MeetsShift(p, kinds, b, i + 1);
        }
      }
    }
  }

  lemma PayloadFails(p: (Kind, Bytes) -> bool, e: Error, code: nat, b: Bytes)
    requires Tells(p, e) && e != ProtocolViolation && !e.UnknownMessageType?
    ensures DecPayload(code, b) == Err(e) <==> PayloadMeets(p, code, b)
  {
    if code == MSG_FETCH {
      var head := DecFields([KNumber, KNumber], b);
      FieldsFail(p, e, [KNumber, KNumber], b);
      if head.Ok? && FormOf(head.value.0).Some? {
        FieldsFail(p, e, FormOf(head.value.0).value, head.value.1);
      }
    } else if Layout(code).Some? {
      FieldsFail(p, e, Layout(code).value, b);
    }
  }

  lemma CutTells()
    ensures Tells(IsCut(), BufferTooShort)
  {
    forall k: Kind, b: Bytes ensures IsCut()(k, b) <==> DecField(k, b) == Err(BufferTooShort) {
      FieldShort(k, b);
    }
  }

  /** A list of fields asks for bytes exactly when one of its fields is reached and cut short. */
  lemma FieldsShort(kinds: seq<Kind>, b: Bytes)
    ensures DecFields(kinds, b) == Err(BufferTooShort) <==> FieldsCut(kinds, b)
  {
    CutTells();
    FieldsFail(IsCut(), BufferTooShort, kinds, b);
  }

  /** A complete message asks for more bytes exactly when its payload ends inside a field. */
  lemma BodyShort(code: nat, payload: Bytes)
    ensures DecBody(code, payload) == Err(BufferTooShort) <==> PayloadCut(code, payload)
  {
    CutTells();
    PayloadFails(IsCut(), BufferTooShort, code, payload);
  }

  // ---- Where readers panic, and other failures ----

  /** Failures of a reader that are neither missing bytes nor a violation. */
  predicate Special(e: Error) { e != BufferTooShort && e != ProtocolViolation }

  ghost predicate NeverFails<S(!new), T(!new)>(c: Codec<S, T>, e: Error) {
    forall s, b :: c.dec(s, b) != Err(e)
  }

  lemma {:induction false} ChainNeverFails<S(!new), T(!new)>(c: Codec<S, T>, s: S, count: nat, b: Bytes, e: Error)
    requires NeverFails(c, e)
    ensures DecChain(c, s, count, b) != Err(e)
    decreases count
  {
    if count > 0 && c.dec(s, b).Ok? {
      var (x, rest) := c.dec(s, b).value;
      ChainNeverFails(c, c.next(s, x), count - 1, rest, e);
    }
  }

  lemma {:induction false} RemainingNeverFails<S(!new), T(!new)>(c: Codec<S, T>, s: S, b: Bytes, e: Error)
    requires Consumes(c) && NeverFails(c, e)
    ensures DecRemaining(c, s, b) != Err(e)
    decreases |b|
  {
    if b != [] && c.dec(s, b).Ok? {
      var (x, rest) := c.dec(s, b).value;
      RemainingNeverFails(c, c.next(s, x), rest, e);
    }
  }

  lemma PairsNeverFail(e: Error)
    requires Special(e)
    ensures Consumes(PairCodec()) && NeverFails(PairCodec(), e)
  {
    PairCodecSound();
    forall prev: nat, b: Bytes ensures PairCodec().dec(prev, b) != Err(e) {
      VarintShort(b);
      if GetVarint(b).Ok? { VarintShort(GetVarint(b).value.1); }
    }
  }

  lemma NamespaceNeverFails(least: nat, b: Bytes, e: Error)
    requires Special(e)
    ensures DecNamespace(least, b) != Err(e)
  {
    VarintShort(b);
    if GetVarint(b).Ok? {
      forall total: nat, x: Bytes ensures PartCodec().dec(total, x) != Err(e) { VarintShort(x); }
      ChainNeverFails(PartCodec(), 0, GetVarint(b).value.0, GetVarint(b).value.1, e);
    }
  }

  lemma ParametersFail(b: Bytes, e: Error)
    requires Special(e)
    ensures DecParameters(b) == Err(e) <==> e == Fault && CountTooLarge(b)
  {
    VarintShort(b);
    if GetVarint(b).Ok? {
      PairsNeverFail(e);
      ChainNeverFails(PairCodec(), 0, GetVarint(b).value.0, GetVarint(b).value.1, e);
    }
  }

  /** A whole varint that names no subscribe option. */
  predicate NoSuchOption(b: Bytes) { !VarintCut(b) && DecVarint(b).value.0 > 2 }

  lemma FieldFails(k: Kind, b: Bytes, e: Error)
    requires Special(e)
    ensures DecField(k, b) == Err(e)
       <==> (e == Fault && k == KParams && CountTooLarge(b)) || (e == InvalidValue && k == KOptions && NoSuchOption(b))
  {
    match k
    case KParams => ParametersFail(b, e);
    case KSpace => NamespaceNeverFails(1, b, e);
    case KPrefix => NamespaceNeverFails(0, b, e);
    case KExts =>
      PairsNeverFail(e);
      RemainingNeverFails(PairCodec(), 0, b, e);
    case KFlag =>
    case KNumber => VarintShort(b);
    case KName => VarintShort(b);
    case KUri => VarintShort(b);
    case KReason => VarintShort(b);
    case KOptions => VarintShort(b);
  }

  function IsBadOption(): (Kind, Bytes) -> bool { (k: Kind, b: Bytes) => k == KOptions && NoSuchOption(b) }

  function IsNothing(): (Kind, Bytes) -> bool { (k: Kind, b: Bytes) => false }

  /** What makes a field fail specially. */
  function Telling(e: Error): (Kind, Bytes) -> bool {
    if e == Fault then IsOverlong() else if e == InvalidValue then IsBadOption() else IsNothing()
  }

  lemma SpecialTells(e: Error)
    requires Special(e)
    ensures Tells(Telling(e), e)
  {
    forall k: Kind, b: Bytes ensures Telling(e)(k, b) <==> DecField(k, b) == Err(e) {
      FieldFails(k, b, e);
    }
  }

  /** Reading a complete message panics exactly when a parameter list is reached whose count is too large. */
  lemma BodyFaults(code: nat, payload: Bytes)
    ensures DecBody(code, payload) == Err(Fault) <==> PayloadOverlong(code, payload)
  {
    SpecialTells(Fault);
    PayloadFails(IsOverlong(), Fault, code, payload);
  }

  /** It finds an invalid value exactly when an option is reached that does not exist. */
  lemma BodyInvalid(code: nat, payload: Bytes)
    ensures DecBody(code, payload) == Err(InvalidValue) <==> PayloadMeets(IsBadOption(), code, payload)
  {
    SpecialTells(InvalidValue);
    PayloadFails(IsBadOption(), InvalidValue, code, payload);
  }

  /** It finds the type unknown exactly when there is no layout for it. */
  lemma BodyUnknown(code: nat, payload: Bytes, c: nat)
    ensures DecBody(code, payload) == Err(UnknownMessageType(c)) <==> Layout(code).None? && c == code
  {
    if code == MSG_FETCH || Layout(code).Some? { PayloadKnown(code, payload, c); }
  }

  /** No field reports an unknown type. */
  lemma FieldsKnown(kinds: seq<Kind>, b: Bytes, c: nat)
    ensures DecFields(kinds, b) != Err(UnknownMessageType(c))
  {
    SpecialTells(UnknownMessageType(c));
    FieldsFail(IsNothing(), UnknownMessageType(c), kinds, b);
  }

  lemma PayloadKnown(code: nat, payload: Bytes, c: nat)
    requires code == MSG_FETCH || Layout(code).Some?
    ensures DecPayload(code, payload) != Err(UnknownMessageType(c))
  {
    if code == MSG_FETCH {
      var head := DecFields([KNumber, KNumber], payload);
      FieldsKnown([KNumber, KNumber], payload, c);
      if head.Ok? && FormOf(head.value.0).Some? {
        FieldsKnown(FormOf(head.value.0).value, head.value.1, c);
      }
    } else {
      FieldsKnown(Layout(code).value, payload, c);
    }
  }

  /** There are no other failures. */
  lemma BodyFailures(code: nat, payload: Bytes, e: Error)
    requires DecBody(code, payload) == Err(e)
    ensures e == BufferTooShort || e == ProtocolViolation || e == Fault || e == InvalidValue || e.UnknownMessageType?
  {
    if Special(e) && e != Fault && e != InvalidValue && !e.UnknownMessageType? {
      SpecialTells(e);
      PayloadFails(IsNothing(), e, code, payload);
    }
  }
}
