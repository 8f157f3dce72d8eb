/** Control messages byte by byte: each of the 24 is written out in full, and the encoder writes exactly that
    (section 9 of draft-ietf-moq-transport-16). */
module CodecWire {
  import opened MoqTypes
  import opened CodecErrors
  import opened WireForms
  import opened CodecChains
  import opened CodecKeyValues
  import opened CodecNames
  import opened CodecFields
  import opened CodecMessages
  import opened CodecFraming

  // ---- The components of messages ----

  /** At most 1024 bytes. */
  function Phrase(b: Bytes): Result<Bytes> { if |b| > 1024 then Err(ReasonPhraseTooLong) else Str(b) }

  function Octet(flag: bool): Result<Bytes> { Ok([if flag then 1 else 0]) }

  function Strs(bs: seq<Bytes>): Result<Bytes> {
    if bs == [] then Ok([]) else Cat([Str(bs[0]), Strs(bs[1..])])
  }

  /** Number of fields, then the fields. */
  function Tuple(ns: Namespace): Result<Bytes> { Cat([Int(|ns|), Strs(ns)]) }

  /** Distance from the key before; under an even key a number, under an odd one at most 65535 bytes. */
  function Pair(prev: nat, kv: KeyValuePair): Result<Bytes> {
    if kv.key < prev then Err(KeyValueFormattingError)
    else
      Cat([Int(kv.key - prev),
           match kv.value
           case Varint(n) => if kv.key % 2 == 0 then Int(n) else Err(KeyValueFormattingError)
           case Blob(b) => if kv.key % 2 == 1 && |b| <= 65535 then Str(b) else Err(KeyValueFormattingError)])
  }

  function Pairs(prev: nat, ps: seq<KeyValuePair>): Result<Bytes>
    decreases |ps|
  {
    if ps == [] then Ok([]) else Cat([Pair(prev, ps[0]), Pairs(ps[0].key, ps[1..])])
  }

  /** Number of parameters, then the parameters by ascending key. */
  function ParamList(ps: Parameters): Result<Bytes> { Cat([Int(|ps|), Pairs(0, Sorted(ps))]) }

  function Loc(l: Location): Result<Bytes> { Cat([Int(l.group), Int(l.object_)]) }

  function Option_(o: SubscribeOption): Result<Bytes> {
    match o case PublishOnly => Int(0) case NamespaceOnly => Int(1) case Both => Int(2)
  }

  /** The three forms of FETCH, after the request id. */
  function FetchBody(f: FetchType): Result<Bytes> {
    match f
    case Standalone(ns, name, start, end) => Cat([Int(1), Tuple(ns), Str(name), Loc(start), Loc(end)])
    case RelativeJoining(id, start) => Cat([Int(2), Int(id), Int(start)])
    case AbsoluteJoining(id, start) => Cat([Int(3), Int(id), Int(start)])
  }

  // ---- The messages ----

  function Code(m: ControlMessage): nat {
    match m
    case RequestUpdate(_, _, _) => 0x2
    case Subscribe(_, _, _, _) => 0x3
    case SubscribeOk(_, _, _, _) => 0x4
    case RequestError(_, _, _, _) => 0x5
    case PublishNamespace(_, _, _) => 0x6
    case RequestOk(_, _) => 0x7
    case NamespaceMsg(_) => 0x8
    case PublishNamespaceDone(_) => 0x9
    case Unsubscribe(_) => 0xA
    case PublishDone(_, _, _, _) => 0xB
    case PublishNamespaceCancel(_, _, _) => 0xC
    case TrackStatus(_, _, _, _) => 0xD
    case NamespaceDone(_) => 0xE
    case Goaway(_) => 0x10
    case SubscribeNamespace(_, _, _, _) => 0x11
    case MaxRequestId(_) => 0x15
    case Fetch(_, _, _) => 0x16
    case FetchCancel(_) => 0x17
    case FetchOk(_, _, _, _, _) => 0x18
    case RequestsBlocked(_) => 0x1A
    case Publish(_, _, _, _, _, _) => 0x1D
    case PublishOk(_, _) => 0x1E
    case ClientSetup(_) => 0x20
    case ServerSetup(_) => 0x21
  }

  /** The payload, component by component. */
  function Body(m: ControlMessage): seq<Result<Bytes>> {
    match m
    case RequestUpdate(id, existing, ps) => [Int(id), Int(existing), ParamList(ps)]
    case Subscribe(id, ns, name, ps) => [Int(id), Tuple(ns), Str(name), ParamList(ps)]
    case SubscribeOk(id, alias, ps, exts) => [Int(id), Int(alias), ParamList(ps), Pairs(0, exts)]
    case RequestError(id, code, retry, reason) => [Int(id), Int(code), Int(retry), Phrase(reason)]
    case PublishNamespace(id, ns, ps) => [Int(id), Tuple(ns), ParamList(ps)]
    case RequestOk(id, ps) => [Int(id), ParamList(ps)]
    case NamespaceMsg(suffix) => [Tuple(suffix)]
    case PublishNamespaceDone(id) => [Int(id)]
    case Unsubscribe(id) => [Int(id)]
    case PublishDone(id, status, count, reason) => [Int(id), Int(status), Int(count), Phrase(reason)]
    case PublishNamespaceCancel(id, code, reason) => [Int(id), Int(code), Phrase(reason)]
    case TrackStatus(id, ns, name, ps) => [Int(id), Tuple(ns), Str(name), ParamList(ps)]
    case NamespaceDone(suffix) => [Tuple(suffix)]
    case Goaway(uri) => [Str(uri)]
    case SubscribeNamespace(id, prefix, o, ps) => [Int(id), Tuple(prefix), Option_(o), ParamList(ps)]
    case MaxRequestId(n) => [Int(n)]
    case Fetch(id, f, ps) => [Int(id), FetchBody(f), ParamList(ps)]
    case FetchCancel(id) => [Int(id)]
    case FetchOk(id, last, end, ps, exts) => [Int(id), Octet(last), Loc(end), ParamList(ps), Pairs(0, exts)]
    case RequestsBlocked(n) => [Int(n)]
    case Publish(id, ns, name, alias, ps, exts) =>
      [Int(id), Tuple(ns), Str(name), Int(alias), ParamList(ps), Pairs(0, exts)]
    case PublishOk(id, ps) => [Int(id), ParamList(ps)]
    case ClientSetup(ps) => [ParamList(ps)]
    case ServerSetup(ps) => [ParamList(ps)]
  }

  /** Type, length in two bytes, payload. */
  function Message(code: nat, body: Result<Bytes>): Result<Bytes> {
    if body.Err? then body
    else if |body.value| > 0xFFFF then Err(MessageTooLong)
    else Cat([Int(code), Ok([|body.value| / 0x100, |body.value| % 0x100]), body])
  }

  function Wire(m: ControlMessage): Result<Bytes> { Message(Code(m), Cat(Body(m))) }

  // ---- The components are those the encoder writes ----

  lemma {:induction false} StrsAre(total: nat, bs: seq<Bytes>)
    ensures EncChain(PartCodec(), total, bs) == Strs(bs)
    decreases |bs|
  {
    if bs != [] {
      StrIs(bs[0]);
      StrsAre(total + |bs[0]|, bs[1..]);
      CatTwo(Str(bs[0]), Strs(bs[1..]));
    }
  }

  lemma TupleIs(ns: Namespace)
    ensures EncNamespace(ns) == Tuple(ns)
  {
    IntIs(|ns|);
    StrsAre(0, ns);
    CatTwo(Int(|ns|), Strs(ns));
  }

  lemma PairIs(prev: nat, kv: KeyValuePair)
    ensures EncPair(prev, kv) == Pair(prev, kv)
  {
    if kv.key >= prev {
      IntIs(kv.key - prev);
      CatTwo(Int(kv.key - prev), EncValue(kv));
      match kv.value
      case Varint(n) => IntIs(n);
      case Blob(b) => StrIs(b);
    }
  }

  lemma {:induction false} PairsAre(prev: nat, ps: seq<KeyValuePair>)
    ensures EncChain(PairCodec(), prev, ps) == Pairs(prev, ps)
    decreases |ps|
  {
    if ps != [] {
      PairIs(prev, ps[0]);
      PairsAre(ps[0].key, ps[1..]);
      CatTwo(Pair(prev, ps[0]), Pairs(ps[0].key, ps[1..]));
    }
  }

  lemma ParamListIs(ps: Parameters)
    ensures EncParameters(ps) == ParamList(ps)
  {
    SortedCounts(ps);
    IntIs(|ps|);
    PairsAre(0, Sorted(ps));
    CatTwo(Int(|ps|), Pairs(0, Sorted(ps)));
  }

  // ---- Payloads ----

  function Component(f: Field): Result<Bytes> {
    match f
    case Number(n) => Int(n)
    case Name(b) => Str(b)
    case Uri(b) => Str(b)
    case Reason(b) => Phrase(b)
    case Space(ns) => Tuple(ns)
    case Prefix(ns) => Tuple(ns)
    case Flag(flag) => Octet(flag)
    case Options(o) => Option_(o)
    case Params(ps) => ParamList(ps)
    case Exts(exts) => Pairs(0, exts)
  }

  function Components(fs: seq<Field>): seq<Result<Bytes>> {
    seq(|fs|, i requires 0 <= i < |fs| => Component(fs[i]))
  }

  lemma ComponentIs(f: Field)
    ensures EncField(f) == Component(f)
  {
    match f
    case Number(n) => IntIs(n);
    case Name(b) => StrIs(b);
    case Uri(b) => StrIs(b);
    case Reason(b) => StrIs(b);
    case Space(ns) => TupleIs(ns);
    case Prefix(ns) => TupleIs(ns);
    case Flag(_) =>
    case Options(o) => IntIs(OptionCode(o));
    case Params(ps) => ParamListIs(ps);
    case Exts(exts) => PairsAre(0, exts);
  }

  lemma {:induction false} FieldsAre(fs: seq<Field>)
    ensures EncFields(fs) == Cat(Components(fs))
  {
    if fs != [] {
      ComponentIs(fs[0]);
      FieldsAre(fs[1..]);
      assert Components(fs)[1..] == Components(fs[1..]);
    }
  }

  /** Messages whose fields are their components, one for one. */
  predicate Flat(m: ControlMessage) { !m.Fetch? && !m.FetchOk? }

  lemma FlatBody(m: ControlMessage)
    requires Flat(m)
    ensures Components(Fields(m)) == Body(m)
  {
    if |Body(m)| <= 3 { ShortBody(m); } else { LongBody(m); }
  }

  lemma ShortBody(m: ControlMessage)
    requires Flat(m) && |Body(m)| <= 3
    ensures Components(Fields(m)) == Body(m)
  {
  }

  lemma LongBody(m: ControlMessage)
    requires Flat(m) && |Body(m)| > 3
    ensures Components(Fields(m)) == Body(m)
  {
  }

  lemma LocIs(a: seq<Result<Bytes>>, l: Location, b: seq<Result<Bytes>>)
    ensures Cat(a + [Int(l.group), Int(l.object_)] + b) == Cat(a + [Loc(l)] + b)
  {
    Nested(a, [Int(l.group), Int(l.object_)], b);
  }

  /** Writing some parts together first makes no difference. */
  lemma Nested(a: seq<Result<Bytes>>, mid: seq<Result<Bytes>>, b: seq<Result<Bytes>>)
    ensures Cat(a + mid + b) == Cat(a + [Cat(mid)] + b)
  {
    CatAppend(a + mid, b);
    CatAppend(a, mid);
    CatAppend(a + [Cat(mid)], b);
    CatAppend(a, [Cat(mid)]);
    CatOne(Cat(mid));
  }

  lemma FetchOkBody(m: ControlMessage)
    requires m.FetchOk?
    ensures Cat(Components(Fields(m))) == Cat(Body(m))
  {
    var a, b := [Int(m.requestId), Octet(m.endOfTrack)], [ParamList(m.parameters), Pairs(0, m.trackExtensions)];
    LocIs(a, m.endLocation, b);
    assert Components(Fields(m)) == a + [Int(m.endLocation.group), Int(m.endLocation.object_)] + b;
    assert Body(m) == a + [Loc(m.endLocation)] + b;
  }

  lemma FetchFormBody(f: FetchType)
    ensures Cat(Components(FetchFields(f))) == FetchBody(f)
  {
    match f
    case Standalone(ns, name, start, end) =>
      var a := [Int(1), Tuple(ns), Str(name)];
      var x, y := [Int(start.group), Int(start.object_)], [Int(end.group), Int(end.object_)];
      LocIs(a, start, y);
      LocIs(a + [Loc(start)], end, []);
      assert Components(FetchFields(f)) == a + x + y;
      assert a + [Loc(start)] + y == a + [Loc(start)] + y + [];
      assert a + [Loc(start)] + [Loc(end)] + [] == [Int(1), Tuple(ns), Str(name), Loc(start), Loc(end)];
    case RelativeJoining(id, start) => assert Components(FetchFields(f)) == [Int(2), Int(id), Int(start)];
    case AbsoluteJoining(id, start) => assert Components(FetchFields(f)) == [Int(3), Int(id), Int(start)];
  }

  lemma FetchWhole(m: ControlMessage)
    requires m.Fetch?
    ensures Cat(Components(Fields(m))) == Cat(Body(m))
  {
    var a, b := [Int(m.requestId)], [ParamList(m.parameters)];
    FetchFormBody(m.fetchType);
    Nested(a, Components(FetchFields(m.fetchType)), b);
    assert Components(Fields(m)) == a + Components(FetchFields(m.fetchType)) + b;
    assert Body(m) == a + [FetchBody(m.fetchType)] + b;
  }

  lemma PayloadIs(m: ControlMessage)
    ensures EncFields(Fields(m)) == Cat(Body(m))
  {
    FieldsAre(Fields(m));
    if m.Fetch? {
      FetchWhole(m);
    } else if m.FetchOk? {
      FetchOkBody(m);
    } else {
      FlatBody(m);
    }
  }

  lemma MessageIs(code: nat, payload: Bytes)
    requires code <= 0x21
    ensures EncFrame(code, payload) == Message(code, Ok(payload))
  {
    IntIs(code);
    if |payload| <= 0xFFFF {
      var len := [|payload| / 0x100, |payload| % 0x100];
      var l: Result<Bytes> := Ok(len);
      CatAppend([Int(code)], [l, Ok(payload)]);
      assert [Int(code)] + [l, Ok(payload)] == [Int(code), l, Ok(payload)];
      CatOne(Int(code));
      CatTwo(l, Ok(payload));
      CatTwo(Int(code), Ok(len + payload));
      assert Int(code).value + (len + payload) == Int(code).value + len + payload;
    }
  }

  /** The encoder writes every message, or fails, byte for byte as it is written out here. */
  lemma WireForm(m: ControlMessage)
    ensures EncMessage(m) == Wire(m)
  {
    PayloadIs(m);
    CodeIs(m);
    if Cat(Body(m)).Ok? { MessageIs(Code(m), Cat(Body(m)).value); }
  }

  lemma CodeIs(m: ControlMessage)
    ensures MessageType(m) == Code(m) <= 0x21
  {
  }
}
