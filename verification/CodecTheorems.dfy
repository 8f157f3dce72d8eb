/** Round trips, unique framing and canonical forms of control messages. */
module CodecTheorems {
  import opened MoqTypes
  import opened Varint
  import opened Utf8
  import opened CodecErrors
  import opened CodecKeyValues
  import opened CodecNames
  import opened CodecFields
  import opened CodecMessages
  import opened CodecFraming
  import opened CodecShortage
  import opened StreamParsers

  // ---- Messages and their fields ----

  predicate HasParameters(m: ControlMessage) {
    m.ClientSetup? || m.ServerSetup? || m.RequestOk? || m.Subscribe? || m.SubscribeOk? || m.RequestUpdate? || m.Publish?
    || m.PublishOk? || m.Fetch? || m.FetchOk? || m.TrackStatus? || m.PublishNamespace? || m.SubscribeNamespace?
  }

  /** The same message, parameters sorted by key; equal to it in the source's sense of equality. */
  function Canonical(m: ControlMessage): ControlMessage {
    if HasParameters(m) then m.(parameters := Sorted(m.parameters)) else m
  }

  /** What the types of the source guarantee: reason phrases are strings, keys are 64-bit numbers,
      parameters are a vector. */
  predicate WellTyped(m: ControlMessage) {
    && (HasParameters(m) ==> KeysFit(m.parameters) && VectorHolds(|m.parameters|))
    && (m.SubscribeOk? || m.Publish? || m.FetchOk? ==> KeysFit(m.trackExtensions))
    && (m.RequestError? || m.PublishDone? || m.PublishNamespaceCancel? ==> ValidUtf8(m.errorReason))
  }

  /** What the decoder checks and the encoder does not: namespaces and the GOAWAY URI. */
  predicate WellFormed(m: ControlMessage) {
    match m
    case Goaway(uri) => |uri| <= MAX_GOAWAY_URI_BYTES
    case Subscribe(_, ns, _, _) => NamespaceOk(1, ns)
    case Publish(_, ns, _, _, _, _) => NamespaceOk(1, ns)
    case TrackStatus(_, ns, _, _) => NamespaceOk(1, ns)
    case PublishNamespace(_, ns, _) => NamespaceOk(1, ns)
    case Fetch(_, Standalone(ns, _, _, _), _) => NamespaceOk(1, ns)
    case NamespaceMsg(suffix) => NamespaceOk(0, suffix)
    case NamespaceDone(suffix) => NamespaceOk(0, suffix)
    case SubscribeNamespace(_, prefix, _, _) => NamespaceOk(0, prefix)
    case _ => true
  }

  lemma FetchFieldsShaped(id: nat, f: FetchType, ps: Parameters)
    ensures Shaped(MSG_FETCH, Fields(Fetch(id, f, ps))) && BuildFetch(Fields(Fetch(id, f, ps))) == Fetch(id, f, ps)
  {
    if f.Standalone? {
      StandaloneShaped(id, f, ps);
    } else {
      var fs := Fields(Fetch(id, f, ps));
      var rest := fs[2..];
      assert fs[1] == FetchFields(f)[0] && rest == FetchFields(f)[1..] + [Params(ps)];
      assert Kinds(rest) == [KNumber, KNumber, KParams];
    }
  }

  lemma StandaloneShaped(id: nat, f: FetchType, ps: Parameters)
    requires f.Standalone?
    ensures Shaped(MSG_FETCH, Fields(Fetch(id, f, ps))) && BuildFetch(Fields(Fetch(id, f, ps))) == Fetch(id, f, ps)
  {
    var fs := Fields(Fetch(id, f, ps));
    var rest := fs[2..];
    assert fs[1] == Number(1) && rest == FetchFields(f)[1..] + [Params(ps)];
    assert Kinds(rest) == [KSpace, KName, KNumber, KNumber, KNumber, KNumber, KParams];
  }

  /** Messages of up to three fields, for shorter case splits. */
  predicate Short(m: ControlMessage) {
    m.ClientSetup? || m.ServerSetup? || m.RequestOk? || m.RequestUpdate? || m.PublishOk? || m.PublishNamespace?
  }

  lemma ShortFieldsDetermine(m: ControlMessage)
    requires Short(m)
    ensures Shaped(MessageType(m), Fields(m)) && Build(MessageType(m), Fields(m)) == m
  {
    assert Layout(MessageType(m)).value == Kinds(Fields(m));
  }

  predicate Extended(m: ControlMessage) { m.SubscribeOk? || m.Publish? || m.FetchOk? }

  lemma LongFieldsDetermine(m: ControlMessage)
    requires m.Subscribe? || m.TrackStatus? || m.SubscribeNamespace?
    ensures Shaped(MessageType(m), Fields(m)) && Build(MessageType(m), Fields(m)) == m
  {
    assert Layout(MessageType(m)).value == Kinds(Fields(m));
  }

  lemma ExtendedFieldsDetermine(m: ControlMessage)
    requires Extended(m)
    ensures Shaped(MessageType(m), Fields(m)) && Build(MessageType(m), Fields(m)) == m
  {
    var fs, layout := Fields(m), Layout(MessageType(m)).value;
    if m.SubscribeOk? {
      assert Kinds(fs) == layout;
    } else if m.Publish? {
      assert Kinds(fs) == layout;
    } else {
      assert Kinds(fs) == layout;
    }
  }

  lemma PlainFieldsDetermine(m: ControlMessage)
    requires !HasParameters(m)
    ensures Shaped(MessageType(m), Fields(m)) && Build(MessageType(m), Fields(m)) == m
  {
    assert Layout(MessageType(m)).value == Kinds(Fields(m));
  }

  /** The fields of a message have its shape and determine it. */
  lemma FieldsDetermine(m: ControlMessage)
    ensures Shaped(MessageType(m), Fields(m)) && Build(MessageType(m), Fields(m)) == m
  {
    if m.Fetch? {
      FetchFieldsShaped(m.requestId, m.fetchType, m.parameters);
    } else if Short(m) {
      ShortFieldsDetermine(m);
    } else if Extended(m) {
      ExtendedFieldsDetermine(m);
    } else if HasParameters(m) {
      LongFieldsDetermine(m);
    } else {
      PlainFieldsDetermine(m);
    }
  }

  lemma BuildFetchFields(fs: seq<Field>)
    requires Shaped(MSG_FETCH, fs)
    ensures BuildFetch(fs).Fetch? && Fields(BuildFetch(fs)) == fs
  {
    var ks := Kinds(fs[2..]);
    assert forall i :: 0 <= i < |ks| ==> KindOf(fs[2..][i]) == ks[i];
    if fs[1].n == 1 {
      BuildStandaloneFields(fs);
    } else {
      assert fs == [fs[0], fs[1], fs[2], fs[3], fs[4]];
    }
  }

  lemma BuildStandaloneFields(fs: seq<Field>)
    requires Shaped(MSG_FETCH, fs) && fs[1].n == 1
    ensures BuildFetch(fs).Fetch? && Fields(BuildFetch(fs)) == fs
  {
    StandaloneKinds(fs);
    assert fs == [fs[0], fs[1], fs[2], fs[3], fs[4], fs[5], fs[6], fs[7], fs[8]];
  }

  lemma StandaloneKinds(fs: seq<Field>)
    requires Shaped(MSG_FETCH, fs) && fs[1].n == 1
    ensures |fs| == 9 && fs[0].Number? && fs[2].Space? && fs[3].Name? && fs[8].Params?
    ensures fs[4].Number? && fs[5].Number? && fs[6].Number? && fs[7].Number?
  {
    var ks := Kinds(fs[2..]);
    assert forall i :: 0 <= i < |ks| ==> KindOf(fs[2 + i]) == ks[i];
  }

  /** A message built from fields has exactly those. */
  lemma BuildKeepsFields(code: nat, fs: seq<Field>)
    requires Shaped(code, fs)
    ensures MessageType(Build(code, fs)) == code && Fields(Build(code, fs)) == fs
  {
    if code == MSG_FETCH {
      BuildFetchFields(fs);
    } else if |fs| <= 3 {
      BuildKeepsFew(code, fs);
    } else if fs[|fs| - 1].Exts? {
      BuildKeepsExtended(code, fs);
    } else if fs[|fs| - 1].Reason? {
      BuildKeepsReason(code, fs);
    } else {
      BuildKeepsMany(code, fs);
    }
  }

  lemma BuildKeepsFew(code: nat, fs: seq<Field>)
    requires Shaped(code, fs) && code != MSG_FETCH && |fs| <= 3
    ensures MessageType(Build(code, fs)) == code && Fields(Build(code, fs)) == fs
  {
    assert forall i :: 0 <= i < |fs| ==> KindOf(fs[i]) == Layout(code).value[i];
    if |fs| == 1 {
      assert fs == [fs[0]];
    } else if |fs| == 2 {
      assert fs == [fs[0], fs[1]];
    } else {
      assert fs == [fs[0], fs[1], fs[2]];
    }
  }

  lemma BuildKeepsReason(code: nat, fs: seq<Field>)
    requires Shaped(code, fs) && code != MSG_FETCH && |fs| > 3 && fs[|fs| - 1].Reason?
    ensures MessageType(Build(code, fs)) == code && Fields(Build(code, fs)) == fs
  {
    assert forall i :: 0 <= i < |fs| ==> KindOf(fs[i]) == Layout(code).value[i];
    assert fs == [fs[0], fs[1], fs[2], fs[3]];
  }

  lemma BuildKeepsMany(code: nat, fs: seq<Field>)
    requires Shaped(code, fs) && code != MSG_FETCH && |fs| > 3 && !fs[|fs| - 1].Exts? && !fs[|fs| - 1].Reason?
    ensures MessageType(Build(code, fs)) == code && Fields(Build(code, fs)) == fs
  {
    assert forall i :: 0 <= i < |fs| ==> KindOf(fs[i]) == Layout(code).value[i];
    assert fs == [fs[0], fs[1], fs[2], fs[3]];
  }

  lemma BuildKeepsExtended(code: nat, fs: seq<Field>)
    requires Shaped(code, fs) && code != MSG_FETCH && |fs| > 3 && fs[|fs| - 1].Exts?
    ensures MessageType(Build(code, fs)) == code && Fields(Build(code, fs)) == fs
  {
    assert forall i :: 0 <= i < |fs| ==> KindOf(fs[i]) == Layout(code).value[i];
    if |fs| == 4 {
      assert fs == [fs[0], fs[1], fs[2], fs[3]];
    } else {
      assert |fs| == 6;
      assert fs == [fs[0], fs[1], fs[2], fs[3], fs[4], fs[5]];
    }
  }

  lemma CanonicalFields(m: ControlMessage)
    ensures MessageType(Canonical(m)) == MessageType(m) && Fields(Canonical(m)) == CanonFields(Fields(m))
  {
    if Short(m) {
      ShortCanonicalFields(m);
    } else if m.Fetch? {
      FetchCanonicalFields(m);
    } else if HasParameters(m) {
      LongCanonicalFields(m);
    } else {
      var a, b := Fields(Canonical(m)), CanonFields(Fields(m));
      assert |a| == |b| && forall i :: 0 <= i < |a| ==> a[i] == b[i];
    }
  }

  lemma ShortCanonicalFields(m: ControlMessage)
    requires Short(m)
    ensures Fields(Canonical(m)) == CanonFields(Fields(m))
  {
    var a, b := Fields(Canonical(m)), CanonFields(Fields(m));
    assert |a| == |b| && forall i :: 0 <= i < |a| ==> a[i] == b[i];
  }

  lemma FetchCanonicalFields(m: ControlMessage)
    requires m.Fetch?
    ensures Fields(Canonical(m)) == CanonFields(Fields(m))
  {
    var id, form, ps := Number(m.requestId), FetchFields(m.fetchType), m.parameters;
    NoParamsInForm(m.fetchType);
    var cs := CanonFields([id] + form + [Params(ps)]);
    assert |cs| == |form| + 2;
    assert cs[0] == id && cs[|form| + 1] == Params(Sorted(ps));
    assert forall i :: 0 <= i < |form| ==> cs[i + 1] == form[i];
    assert cs == [id] + form + [Params(Sorted(ps))];
  }

  lemma NoParamsInForm(f: FetchType)
    ensures forall i :: 0 <= i < |FetchFields(f)| ==> Canon(FetchFields(f)[i]) == FetchFields(f)[i]
  {
  }

  lemma LongCanonicalFields(m: ControlMessage)
    requires HasParameters(m) && !Short(m) && !m.Fetch?
    ensures Fields(Canonical(m)) == CanonFields(Fields(m))
  {
    if m.SubscribeOk? || m.Publish? || m.FetchOk? {
      ExtendedCanonicalFields(m);
    } else {
      var a, b := Fields(Canonical(m)), CanonFields(Fields(m));
      assert |a| == |b| && forall i :: 0 <= i < |a| ==> a[i] == b[i];
    }
  }

  lemma ExtendedCanonicalFields(m: ControlMessage)
    requires m.SubscribeOk? || m.Publish? || m.FetchOk?
    ensures Fields(Canonical(m)) == CanonFields(Fields(m))
  {
    var a, b := Fields(Canonical(m)), CanonFields(Fields(m));
    assert |a| == |b| && forall i :: 0 <= i < |a| ==> a[i] == b[i];
  }

  lemma TypedFields(m: ControlMessage)
    ensures AllTyped(Fields(m)) <==> WellTyped(m)
  {
    var fs := Fields(m);
    if AllTyped(fs) {
      assert Typed(fs[|fs| - 1]) && (|fs| > 1 ==> Typed(fs[|fs| - 2]));
    }
  }

  lemma OkFields(m: ControlMessage)
    ensures AllOk(Fields(m)) <==> WellFormed(m)
  {
    var fs := Fields(m);
    if AllOk(fs) {
      assert FieldOk(fs[0]) && (|fs| > 1 ==> FieldOk(fs[1])) && (|fs| > 2 ==> FieldOk(fs[2]));
    }
  }

  // ---- Frames ----

  lemma U16Back(n: nat, rest: Bytes)
    requires n <= MAX_PAYLOAD
    ensures GetU16([n / 256, n % 256] + rest) == Ok((n, rest))
  {
  }

  lemma FrameBack(code: nat, payload: Bytes, rest: Bytes)
    requires EncFrame(code, payload).Ok?
    ensures Frame(EncFrame(code, payload).value + rest) == Ok((code, payload, rest))
  {
    var head, len := PutVarint(code).value, [|payload| / 256, |payload| % 256];
    assert EncFrame(code, payload).value + rest == head + (len + (payload + rest));
    VarintBack(code, len + (payload + rest));
    U16Back(|payload|, payload + rest);
    BytesBack(payload, rest);
  }

  /** Bytes after a complete message do not change it. */
  lemma FrameStable(b: Bytes, more: Bytes)
    requires Frame(b).Ok?
    ensures Frame(b + more) == Ok((Frame(b).value.0, Frame(b).value.1, Frame(b).value.2 + more))
  {
    var (code, b1) := GetVarint(b).value;
    VarintGrows(b, more);
    var (len, b2) := GetU16(b1).value;
    assert (b1 + more)[2..] == b1[2..] + more;
    assert (b2 + more)[..len] == b2[..len] && (b2 + more)[len..] == b2[len..] + more;
  }

  /** A message cut short is not complete. */
  lemma FramePrefix(code: nat, payload: Bytes, k: nat)
    requires EncFrame(code, payload).Ok? && k < |EncFrame(code, payload).value|
    ensures Frame(EncFrame(code, payload).value[..k]) == Err(BufferTooShort)
  {
    var b := EncFrame(code, payload).value;
    assert b[..k] + b[k..] == b;
    FrameBack(code, payload, []);
    assert b + [] == b;
    if Frame(b[..k]).Ok? {
      FrameStable(b[..k], b[k..]);
    }
  }

  /** Headers of at most n bytes are re-encoded in at most as many. */
  lemma FrameShrinks(b: Bytes)
    requires Frame(b).Ok?
    ensures var (code, payload, rest) := Frame(b).value;
            && code <= MAX_VARINT && |payload| <= MAX_PAYLOAD
            && |PutVarint(code).value| + 2 + |payload| + |rest| <= |b|
  {
    VarintShrinks(b);
    VarintFits(Frame(b).value.0);
  }

  // ---- Main results ----

  /** Encode, then decode: the canonical message, consuming exactly its encoding, if the message is
      well formed; a protocol violation if it is not. */
  lemma RoundTripExact(m: ControlMessage, rest: Bytes)
    requires WellTyped(m) && EncMessage(m).Ok?
    ensures DecMessage(EncMessage(m).value + rest)
         == if WellFormed(m) then Ok((Canonical(m), |EncMessage(m).value|)) else Err(ProtocolViolation)
  {
    var payload := EncFields(Fields(m)).value;
    FramedBack(MessageType(m), payload, rest);
    BodyBack(m);
  }

  /** A framed payload is decoded as its body, and its length is that of the frame. */
  lemma FramedBack(code: nat, payload: Bytes, rest: Bytes)
    requires EncFrame(code, payload).Ok?
    ensures DecMessage(EncFrame(code, payload).value + rest)
         == Counted(DecBody(code, payload), |EncFrame(code, payload).value|)
  {
    FrameBack(code, payload, rest);
  }

  /** The payload of a message decodes to it. */
  lemma BodyBack(m: ControlMessage)
    requires WellTyped(m) && EncFields(Fields(m)).Ok?
    ensures DecBody(MessageType(m), EncFields(Fields(m)).value)
            == if WellFormed(m) then Ok(Canonical(m)) else Err(ProtocolViolation)
  {
    FieldsDetermine(m);
    TypedFields(m);
    OkFields(m);
    PayloadBack(MessageType(m), Fields(m));
    CanonicalFields(m);
    FieldsDetermine(Canonical(m));
  }

  /** Every proper prefix of an encoded message is too short. */
  lemma ProperPrefixTooShort(m: ControlMessage, k: nat)
    requires EncMessage(m).Ok? && k < |EncMessage(m).value|
    ensures DecMessage(EncMessage(m).value[..k]) == Err(BufferTooShort)
  {
    FramePrefix(MessageType(m), EncFields(Fields(m)).value, k);
  }

  /** A decoded message is well formed and canonical; its encoding succeeds, takes no more bytes than were
      read, and decodes back to it. */
  lemma CanonicalisationNeverGrows(b: Bytes, rest: Bytes)
    requires DecMessage(b).Ok?
    ensures var (m, n) := DecMessage(b).value;
            && WellTyped(m) && WellFormed(m) && Canonical(m) == m
            && EncMessage(m).Ok? && |EncMessage(m).value| <= n
            && DecMessage(EncMessage(m).value + rest) == Ok((m, |EncMessage(m).value|))
  {
    var (code, payload, left) := Frame(b).value;
    FrameShrinks(b);
    PayloadShrinks(code, payload);
    var (fs, _) := DecPayload(code, payload).value;
    var m := DecMessage(b).value.0;
    BuildKeepsFields(code, fs);
    VarintFits(code);
    TypedFields(m);
    OkFields(m);
    CanonicalFields(m);
    FieldsDetermine(Canonical(m));
    FieldsDetermine(m);
    RoundTripExact(m, rest);
  }

  /** Once a message is complete its result is final; until then there is nothing but BufferTooShort. */
  lemma CompleteIsFinal(b: Bytes, more: Bytes)
    ensures Frame(b).Ok? ==> DecMessage(b + more) == DecMessage(b)
    ensures Frame(b).Err? ==> DecMessage(b) == Err(BufferTooShort)
  {
    if Frame(b).Ok? {
      FrameStable(b, more);
      FramedAlike(DecBody, Frame(b + more), |b + more|, Frame(b), |b|);
    } else {
      FrameTooShort(b);
    }
  }

  /** Nothing but missing bytes keeps a message from being complete. */
  lemma FrameTooShort(b: Bytes)
    requires Frame(b).Err?
    ensures DecMessage(b) == Err(BufferTooShort)
  {
  }

  /** A complete message is answered with BufferTooShort exactly when its payload ends inside a field,
      and then no bytes that follow change the answer. */
  lemma TooShortInVain(b: Bytes)
    requires Frame(b).Ok?
    ensures DecMessage(b) == Err(BufferTooShort) <==> PayloadCut(Frame(b).value.0, Frame(b).value.1)
    ensures DecMessage(b) == Err(BufferTooShort) ==> forall more :: DecMessage(b + more) == Err(BufferTooShort)
  {
    BodyShort(Frame(b).value.0, Frame(b).value.1);
    forall more ensures DecMessage(b + more) == DecMessage(b) { CompleteIsFinal(b, more); }
  }

  /** Such a message exists: UNSUBSCRIBE with an empty payload. */
  lemma TooShortInVainExample()
    ensures Frame([0x0A, 0, 0]) == Ok((MSG_UNSUBSCRIBE, [], [])) && DecMessage([0x0A, 0, 0]) == Err(BufferTooShort)
  {
    var b: Bytes := [0x0A, 0, 0];
    var first: Bytes := [b[0] % 64] + b[1..1];
    assert first == [0x0A] && first[..0] == [] && Value(first) == 0x0A;
    assert GetVarint(b) == Ok((MSG_UNSUBSCRIBE, b[1..])) && b[1..] == [0, 0];
    assert GetU16([0, 0]) == Ok((0, [])) by { assert [0, 0][2..] == []; }
    assert FieldMeets(IsCut(), [KNumber], [], 0) by { assert [KNumber][..0] == []; }
    TooShortInVain(b);
  }

  /** Decoding panics exactly when the message is complete and its payload comes to a parameter list whose
      count, whole and of at most 2^62 - 1, is too large for a vector of pairs; bytes that follow change nothing. */
  lemma FaultsIff(b: Bytes)
    ensures DecMessage(b) == Err(Fault) <==> Frame(b).Ok? && PayloadOverlong(Frame(b).value.0, Frame(b).value.1)
    ensures DecMessage(b) == Err(Fault) ==> forall more :: DecMessage(b + more) == Err(Fault)
  {
    if Frame(b).Ok? {
      BodyFaults(Frame(b).value.0, Frame(b).value.1);
      forall more ensures DecMessage(b + more) == DecMessage(b) { CompleteIsFinal(b, more); }
    } else {
      CompleteIsFinal(b, []);
    }
  }

  /** A CLIENT_SETUP that announces 2^62 - 1 parameters and ends there. */
  lemma FaultExample(b: Bytes)
    requires b == [0x20, 0, 8, 0xFF, 0xFF, 0xFF, 0xFF, 0xFF, 0xFF, 0xFF, 0xFF]
    ensures DecMessage(b) == Err(Fault)
  {
    var payload := b[3..];
    SmallFrame(b);
    LargestCount(payload);
    assert FieldMeets(IsOverlong(), [KParams], payload, 0) by { assert [KParams][..0] == []; }
    FaultsIff(b);
  }

  /** A frame whose type is a one-byte varint and whose payload is as long as announced. */
  lemma SmallFrame(b: Bytes)
    requires |b| >= 3 && b[0] < 64 && b[1] == 0 && |b| - 3 == b[2]
    ensures Frame(b) == Ok((b[0], b[3..], []))
  {
    var first: Bytes := [b[0] % 64] + b[1..1];
    assert first == [b[0]] && first[..0] == [] && Value(first) == b[0];
    assert GetVarint(b) == Ok((b[0], b[1..]));
    assert b[1..][2..] == b[3..];
    assert b[3..][..b[2]] == b[3..] && b[3..][b[2]..] == [];
  }

  lemma LargestCount(b: Bytes)
    requires |b| == 8 && forall i :: 0 <= i < 8 ==> b[i] == 0xFF
    ensures CountTooLarge(b)
  {
    var raw := [b[0] % 64] + b[1..8];
    PowerValues();
    ValueCons(raw);
    AllOnes(raw[1..]);
    assert DecVarint(b) == Some((MAX_VARINT, 8));
    assert MAX_VARINT * PAIR_BYTES >= MAX_VARINT * 8;
  }

  lemma {:induction false} AllOnes(b: Bytes)
    requires forall i :: 0 <= i < |b| ==> b[i] == 0xFF
    ensures Value(b) == Pow256(|b|) - 1
  {
    if b != [] { AllOnes(b[..|b|-1]); }
  }

  // ---- Streams of messages ----

  /** What decoding the bytes at hand means for a stream. */
  function StepOf(b: Bytes, r: Result<(ControlMessage, nat)>): Step<ControlMessage, Error>
    requires r.Ok? ==> r.value.1 <= |b|
  {
    if r.Ok? then Item(r.value.0, b[r.value.1..]) else if r.error == BufferTooShort then NeedMore else Bad(r.error)
  }

  /** One attempt to take a message off a stream. */
  function MessageStep(b: Bytes): Step<ControlMessage, Error> { StepOf(b, DecMessage(b)) }

  predicate Sendable(m: ControlMessage) {
    WellTyped(m) && WellFormed(m) && EncMessage(m).Ok?
  }

  predicate AllSendable(ms: seq<ControlMessage>) { forall i :: 0 <= i < |ms| ==> Sendable(ms[i]) }

  function Encodings(ms: seq<ControlMessage>): seq<Bytes>
    requires AllSendable(ms)
  {
    seq(|ms|, i requires 0 <= i < |ms| => EncMessage(ms[i]).value)
  }

  function CanonicalAll(ms: seq<ControlMessage>): seq<ControlMessage> {
    seq(|ms|, i requires 0 <= i < |ms| => Canonical(ms[i]))
  }

  lemma MessageStepConsumes()
    ensures Consuming<ControlMessage, Error>(MessageStep)
  {
  }

  lemma EncodesCanonical(m: ControlMessage)
    requires Sendable(m)
    ensures Encodes<ControlMessage, Error>(MessageStep, EncMessage(m).value, Canonical(m))
  {
    var bs := EncMessage(m).value;
    forall rest: Bytes ensures MessageStep(bs + rest) == Item(Canonical(m), rest) {
      RoundTripExact(m, rest);
      assert (bs + rest)[|bs|..] == rest;
    }
  }

  /** Messages sent one after the other, followed by an unfinished tail, are received as the same list and
      the tail is kept. */
  lemma StreamRecovered(ms: seq<ControlMessage>, tail: Bytes)
    requires AllSendable(ms) && DecMessage(tail) == Err(BufferTooShort)
    ensures Consuming<ControlMessage, Error>(MessageStep)
    ensures Drain<ControlMessage, Error>(MessageStep, Joined(Encodings(ms)) + tail)
         == (GotAll<ControlMessage, Error>(CanonicalAll(ms)), tail)
  {
    MessageStepConsumes();
    forall i | 0 <= i < |ms|
      ensures Encodes<ControlMessage, Error>(MessageStep, Encodings(ms)[i], CanonicalAll(ms)[i])
    {
      EncodesCanonical(ms[i]);
    }
    ListRecovered<ControlMessage, Error>(MessageStep, CanonicalAll(ms), Encodings(ms), tail);
  }

  /** In particular a list of messages followed by a proper prefix of another. */
  lemma StreamWithPartialMessage(ms: seq<ControlMessage>, m: ControlMessage, k: nat)
    requires AllSendable(ms) && EncMessage(m).Ok? && k < |EncMessage(m).value|
    ensures Consuming<ControlMessage, Error>(MessageStep)
    ensures var tail := EncMessage(m).value[..k];
            Drain<ControlMessage, Error>(MessageStep, Joined(Encodings(ms)) + tail)
            == (GotAll<ControlMessage, Error>(CanonicalAll(ms)), tail)
  {
    ProperPrefixTooShort(m, k);
    StreamRecovered(ms, EncMessage(m).value[..k]);
  }

  lemma StepOfMore(b: Bytes, more: Bytes, r: Result<(ControlMessage, nat)>)
    requires r.Ok? ==> r.value.1 <= |b|
    ensures StepOf(b, r).Item? ==> StepOf(b + more, r) == Item(StepOf(b, r).item, StepOf(b, r).rest + more)
    ensures !StepOf(b, r).Item? ==> StepOf(b + more, r) == StepOf(b, r)
  {
    if r.Ok? { assert (b + more)[r.value.1..] == b[r.value.1..] + more; }
  }

  lemma MessageStepIsFinal(b: Bytes, more: Bytes)
    ensures MessageStep(b).Item? ==> MessageStep(b + more) == Item(MessageStep(b).item, MessageStep(b).rest + more)
    ensures MessageStep(b).Bad? ==> MessageStep(b + more) == MessageStep(b)
  {
    CompleteIsFinal(b, more);
    StepOfMore(b, more, DecMessage(b));
  }

  lemma MessageStepStable()
    ensures Stable<ControlMessage, Error>(MessageStep)
  {
    MessageStepConsumes();
    forall b: Bytes, more: Bytes
      ensures MessageStep(b).Item? ==> MessageStep(b + more) == Item(MessageStep(b).item, MessageStep(b).rest + more)
      ensures MessageStep(b).Bad? ==> MessageStep(b + more) == MessageStep(b)
    {
      MessageStepIsFinal(b, more);
    }
  }

  /** Whether a stream of messages arrives in one piece or in several makes no difference up to the first
      error or panic, which every later piece repeats. */
  lemma MessageChunking(chunks: seq<Bytes>)
    ensures Consuming<ControlMessage, Error>(MessageStep)
    ensures var (rs, left) := Drain<ControlMessage, Error>(MessageStep, Joined(chunks));
            FeedAll<ControlMessage, Error>(MessageStep, [], chunks)
            == (if Broken(rs)
                then rs + Repeat(rs[|rs| - 1], LaterFeeds<ControlMessage, Error>(MessageStep, [], chunks))
                else rs, left)
  {
    MessageStepStable();
    AnyChunking<ControlMessage, Error>(MessageStep, chunks);
  }

  /** If the stream makes the decoder panic, it does so after the same messages however it is cut; and if it
      does not in one piece, it does not in several. */
  lemma PanicAfterSameMessages(chunks: seq<Bytes>)
    ensures Consuming<ControlMessage, Error>(MessageStep)
    ensures var rs := Drain<ControlMessage, Error>(MessageStep, Joined(chunks)).0;
            var fed := FeedAll<ControlMessage, Error>(MessageStep, [], chunks).0;
            rs <= fed && (Failed(Fault) in fed <==> Broken(rs) && rs[|rs| - 1] == Failed(Fault))
  {
    MessageStepStable();
    SameFirstError<ControlMessage, Error>(MessageStep, chunks, Fault);
  }
}
