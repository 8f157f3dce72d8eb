/** WebTransport capsules and the incremental capsule parser (`capsule.rs`). */
module Capsules {
  import opened MoqTypes
  import opened Varint
  import opened Utf8
  import opened CodecErrors
  import opened WireForms
  import opened StreamParsers
  import opened Envelopes
  import H3Frames

  const MAX_CLOSE_MESSAGE_LEN: nat := 1024

  const CAPSULE_CLOSE_SESSION: nat := 0x2843
  const CAPSULE_DRAIN_SESSION: nat := 0x78ae
  const CAPSULE_MAX_DATA: nat := 0x190B4D3D
  const CAPSULE_MAX_STREAMS_BIDI: nat := 0x190B4D3F
  const CAPSULE_MAX_STREAMS_UNI: nat := 0x190B4D40
  const CAPSULE_DATA_BLOCKED: nat := 0x190B4D41
  const CAPSULE_STREAMS_BLOCKED_BIDI: nat := 0x190B4D43
  const CAPSULE_STREAMS_BLOCKED_UNI: nat := 0x190B4D44

  datatype Limit = MaxStreamsBidi | MaxStreamsUni | StreamsBlockedBidi | StreamsBlockedUni | MaxData | DataBlocked

  datatype Capsule =
    | CloseSession(errorCode: nat, errorMessage: Bytes)
    | DrainSession
    | LimitCapsule(limit: Limit, n: nat)

  datatype CapsuleError = Malformed | CloseMessageTooLong

  function LimitType(l: Limit): nat {
    match l
    case MaxStreamsBidi => CAPSULE_MAX_STREAMS_BIDI
    case MaxStreamsUni => CAPSULE_MAX_STREAMS_UNI
    case StreamsBlockedBidi => CAPSULE_STREAMS_BLOCKED_BIDI
    case StreamsBlockedUni => CAPSULE_STREAMS_BLOCKED_UNI
    case MaxData => CAPSULE_MAX_DATA
    case DataBlocked => CAPSULE_DATA_BLOCKED
  }

  function CapsuleType(c: Capsule): nat {
    match c
    case CloseSession(_, _) => CAPSULE_CLOSE_SESSION
    case DrainSession => CAPSULE_DRAIN_SESSION
    case LimitCapsule(l, _) => LimitType(l)
  }

  function LimitOf(code: nat): Option<Limit> {
    if code == CAPSULE_MAX_STREAMS_BIDI then Some(MaxStreamsBidi)
    else if code == CAPSULE_MAX_STREAMS_UNI then Some(MaxStreamsUni)
    else if code == CAPSULE_STREAMS_BLOCKED_BIDI then Some(StreamsBlockedBidi)
    else if code == CAPSULE_STREAMS_BLOCKED_UNI then Some(StreamsBlockedUni)
    else if code == CAPSULE_MAX_DATA then Some(MaxData)
    else if code == CAPSULE_DATA_BLOCKED then Some(DataBlocked)
    else None
  }

  // ---- Encoding ----

  datatype Encoded = Written(bytes: Bytes) | TooLong | Overflow

  /** The payload; a limit beyond the varint range cannot be written. */
  function Payload(c: Capsule): Encoded {
    match c
    case CloseSession(code, message) =>
      if |message| > MAX_CLOSE_MESSAGE_LEN then TooLong else Written(BigEndian(code, 4) + message)
    case DrainSession => Written([])
    case LimitCapsule(_, n) => match EncVarint(n) case None => Overflow case Some(b) => Written(b)
  }

  function EncCapsule(c: Capsule): Encoded {
    var payload := Payload(c);
    if !payload.Written? then payload
    else
      match EncEnvelope(Envelope(CapsuleType(c), payload.bytes)) case Err(_) => Overflow case Ok(b) => Written(b)
  }

  // ---- Decoding ----

  /** What a complete capsule means. A limit cut short inside a complete capsule counts as missing bytes. */
  function DecBody(e: Envelope): Step<Capsule, CapsuleError> {
    if e.kind == CAPSULE_CLOSE_SESSION then
      if |e.payload| < 4 then Bad(Malformed)
      else if |e.payload[4..]| > MAX_CLOSE_MESSAGE_LEN then Bad(CloseMessageTooLong)
      else if !ValidUtf8(e.payload[4..]) then Bad(Malformed)
      else Item(CloseSession(Value(e.payload[..4]), e.payload[4..]), [])
    else if e.kind == CAPSULE_DRAIN_SESSION then
      if e.payload != [] then Bad(Malformed) else Item(DrainSession, [])
    else if LimitOf(e.kind).Some? then
      match GetVarint(e.payload)
      case Err(_) => NeedMore
      case Ok((n, _)) => Item(LimitCapsule(LimitOf(e.kind).value, n), [])
    else Bad(Malformed)
  }

  function CapsuleStep(b: Bytes): Step<Capsule, CapsuleError> {
    match DecEnvelope(b)
    case Err(_) => NeedMore
    case Ok((e, rest)) =>
      match DecBody(e)
      case NeedMore => NeedMore
      case Bad(err) => Bad(err)
      case Item(c, _) => Item(c, rest)
  }

  lemma CapsuleStepStable()
    ensures Stable<Capsule, CapsuleError>(CapsuleStep)
  {
    forall b: Bytes, more: Bytes | !CapsuleStep(b).NeedMore?
      ensures CapsuleStep(b).Item? ==> CapsuleStep(b + more) == Item(CapsuleStep(b).item, CapsuleStep(b).rest + more)
      ensures CapsuleStep(b).Bad? ==> CapsuleStep(b + more) == CapsuleStep(b)
    {
      EnvelopeGrows(b, more);
    }
  }

  // ---- Round trip ----

  /** Error codes are 32-bit numbers, messages are strings. */
  predicate WellTyped(c: Capsule) {
    c.CloseSession? ==> c.errorCode < 0x1_0000_0000 && ValidUtf8(c.errorMessage)
  }

  lemma BodyBack(c: Capsule)
    requires WellTyped(c) && Payload(c).Written?
    ensures DecBody(Envelope(CapsuleType(c), Payload(c).bytes)) == Item(c, [])
  {
    match c
    case CloseSession(code, message) =>
      PowerValues();
      ValueOfBigEndian(code, 4);
      var payload := BigEndian(code, 4) + message;
      assert payload[..4] == BigEndian(code, 4) && payload[4..] == message;
    case DrainSession =>
    case LimitCapsule(l, n) =>
      VarintBack(n, []);
      assert PutVarint(n).value + [] == PutVarint(n).value;
  }

  /** Decoding inverts encoding, whatever follows. */
  lemma CapsuleBack(c: Capsule, rest: Bytes)
    requires WellTyped(c) && EncCapsule(c).Written?
    ensures CapsuleStep(EncCapsule(c).bytes + rest) == Item(c, rest)
  {
    BodyBack(c);
    EnvelopeBack(Envelope(CapsuleType(c), Payload(c).bytes), rest);
  }

  lemma BodyShrinks(e: Envelope)
    requires DecBody(e).Item?
    ensures var c := DecBody(e).item;
            WellTyped(c) && CapsuleType(c) == e.kind && Payload(c).Written? && |Payload(c).bytes| <= |e.payload|
  {
    var c := DecBody(e).item;
    match c
    case CloseSession(code, message) =>
      PowerValues();
      ValueBound(e.payload[..4]);
    case DrainSession =>
    case LimitCapsule(l, n) => VarintShrinks(e.payload);
  }

  /** A decoded capsule can be written again, in no more bytes than it came in. */
  lemma CapsuleShrinks(b: Bytes)
    requires CapsuleStep(b).Item?
    ensures var (c, rest) := (CapsuleStep(b).item, CapsuleStep(b).rest);
            WellTyped(c) && EncCapsule(c).Written? && |EncCapsule(c).bytes| + |rest| <= |b|
  {
    var e := DecEnvelope(b).value.0;
    EnvelopeShrinks(b);
    BodyShrinks(e);
    SmallerPayload(e, Payload(DecBody(e).item).bytes);
  }

  // ---- The parser ----

  /** Without an error, results and kept bytes do not depend on how the stream is cut; with one, the
      results are the same up to it and every later feed repeats it. */
  lemma CapsuleChunking(chunks: seq<Bytes>)
    ensures Consuming<Capsule, CapsuleError>(CapsuleStep)
    ensures var (rs, left) := Drain<Capsule, CapsuleError>(CapsuleStep, Joined(chunks));
            FeedAll<Capsule, CapsuleError>(CapsuleStep, [], chunks)
            == (if Broken(rs) then rs + Repeat(rs[|rs| - 1], LaterFeeds<Capsule, CapsuleError>(CapsuleStep, [], chunks))
                else rs, left)
  {
    CapsuleStepStable();
    AnyChunking<Capsule, CapsuleError>(CapsuleStep, chunks);
  }

  predicate Writable(cs: seq<Capsule>) {
    forall i :: 0 <= i < |cs| ==> WellTyped(cs[i]) && EncCapsule(cs[i]).Written?
  }

  function EncCapsules(cs: seq<Capsule>): seq<Bytes>
    requires Writable(cs)
  {
    seq(|cs|, i requires 0 <= i < |cs| => EncCapsule(cs[i]).bytes)
  }

  /** Capsules written one after the other are read back, also when the last one is not yet complete. */
  lemma CapsulesRecovered(cs: seq<Capsule>, last: Capsule, k: nat)
    requires Writable(cs) && WellTyped(last) && EncCapsule(last).Written? && k < |EncCapsule(last).bytes|
    ensures Consuming<Capsule, CapsuleError>(CapsuleStep)
    ensures var tail := EncCapsule(last).bytes[..k];
            Drain<Capsule, CapsuleError>(CapsuleStep, Joined(EncCapsules(cs)) + tail)
            == (GotAll<Capsule, CapsuleError>(cs), tail)
  {
    CapsuleStepStable();
    forall c: Capsule | WellTyped(c) && EncCapsule(c).Written?
      ensures Encodes<Capsule, CapsuleError>(CapsuleStep, EncCapsule(c).bytes, c)
    {
      forall rest: Bytes ensures CapsuleStep(EncCapsule(c).bytes + rest) == Item(c, rest) { CapsuleBack(c, rest); }
    }
    PrefixNeedsMore<Capsule, CapsuleError>(CapsuleStep, EncCapsule(last).bytes, last, k);
    ListRecovered<Capsule, CapsuleError>(CapsuleStep, cs, EncCapsules(cs), EncCapsule(last).bytes[..k]);
  }

  /** A complete capsule asks for more bytes exactly when it is a limit whose varint is cut short. */
  lemma StallsIff(b: Bytes)
    requires DecEnvelope(b).Ok?
    ensures CapsuleStep(b).NeedMore?
       <==> LimitOf(DecEnvelope(b).value.0.kind).Some? && DecVarint(DecEnvelope(b).value.0.payload).None?
  {
  }

  /** Nothing that follows such a capsule ever leaves the parser. */
  lemma StalledForever(b: Bytes, more: Bytes)
    requires DecEnvelope(b).Ok? && CapsuleStep(b).NeedMore?
    ensures Consuming<Capsule, CapsuleError>(CapsuleStep)
    ensures Drain<Capsule, CapsuleError>(CapsuleStep, b + more) == ([], b + more)
  {
    CapsuleStepStable();
    EnvelopeGrows(b, more);
  }

  // ---- Byte by byte ----

  /** The registered type of each capsule. */
  function Code(c: Capsule): nat {
    match c
    case CloseSession(_, _) => 0x2843
    case DrainSession => 0x78AE
    case LimitCapsule(MaxData, _) => 0x190B4D3D
    case LimitCapsule(MaxStreamsBidi, _) => 0x190B4D3F
    case LimitCapsule(MaxStreamsUni, _) => 0x190B4D40
    case LimitCapsule(DataBlocked, _) => 0x190B4D41
    case LimitCapsule(StreamsBlockedBidi, _) => 0x190B4D43
    case LimitCapsule(StreamsBlockedUni, _) => 0x190B4D44
  }

  /** A 32-bit number, most significant byte first. */
  function Word(n: nat): Bytes { [n / 0x100_0000 % 0x100, n / 0x1_0000 % 0x100, n / 0x100 % 0x100, n % 0x100] }

  function Content(c: Capsule): Result<Bytes> {
    match c
    case CloseSession(code, message) => Ok(Word(code) + message)
    case DrainSession => Ok([])
    case LimitCapsule(_, n) => Int(n)
  }

  /** A capsule written out: type, length, content. */
  function Wire(c: Capsule): Encoded {
    if c.CloseSession? && |c.errorMessage| > 1024 then TooLong
    else if Content(c).Err? then Overflow
    else
      var body := Content(c).value;
      match Cat([Int(Code(c)), Int(|body|), Ok(body)]) case Err(_) => Overflow case Ok(b) => Written(b)
  }

  lemma WordIs(n: nat)
    requires n < 0x1_0000_0000
    ensures BigEndian(n, 4) == Word(n)
  {
    BigEndianBytes4(n);
  }

  lemma CloseWire(code: nat, message: Bytes)
    requires code < 0x1_0000_0000
    ensures EncCapsule(CloseSession(code, message)) == Wire(CloseSession(code, message))
  {
    WordIs(code);
    EnvelopeWire(Envelope(0x2843, Word(code) + message));
  }

  lemma LimitWire(l: Limit, n: nat)
    ensures EncCapsule(LimitCapsule(l, n)) == Wire(LimitCapsule(l, n))
  {
    var c := LimitCapsule(l, n);
    IntIs(n);
    LimitCode(l, n);
    if Int(n).Ok? { EnvelopeWire(Envelope(Code(c), Int(n).value)); }
  }

  lemma LimitCode(l: Limit, n: nat)
    ensures LimitType(l) == Code(LimitCapsule(l, n))
  {
  }

  /** The encoder writes every capsule, or fails, byte for byte as it is written out here. */
  lemma CapsuleWire(c: Capsule)
    requires WellTyped(c)
    ensures EncCapsule(c) == Wire(c)
  {
    match c
    case CloseSession(code, message) => CloseWire(code, message);
    case DrainSession => EnvelopeWire(Envelope(0x78AE, []));
    case LimitCapsule(l, n) => LimitWire(l, n);
  }

  /** What a payload must be to stand for a capsule; a limit may be followed by anything. */
  ghost predicate Holds(payload: Bytes, c: Capsule) {
    match c
    case CloseSession(code, message) =>
      |payload| >= 4 && code < 0x1_0000_0000 && payload[..4] == Word(code) && payload[4..] == message
      && |message| <= 1024 && ValidUtf8(message)
    case DrainSession => payload == []
    case LimitCapsule(_, n) => exists k: nat :: k <= |payload| && IsInt(payload[..k], n)
  }

  lemma BodyIff(e: Envelope, c: Capsule)
    ensures DecBody(e) == Item(c, []) <==> e.kind == Code(c) && Holds(e.payload, c)
  {
    match c
    case CloseSession(code, message) => CloseIff(e, code, message);
    case DrainSession =>
    case LimitCapsule(l, n) => LimitIff(e, l, n);
  }

  lemma CloseIff(e: Envelope, code: nat, message: Bytes)
    ensures DecBody(e) == Item(CloseSession(code, message), [])
       <==> e.kind == 0x2843 && Holds(e.payload, CloseSession(code, message))
  {
    if |e.payload| >= 4 {
      var b := e.payload[..4];
      PowerValues();
      ValueBound(b);
      BigEndianOfValue(b);
      WordIs(Value(b));
      if code < 0x1_0000_0000 {
        ValueOfBigEndian(code, 4);
        WordIs(code);
      }
    }
  }

  lemma LimitIff(e: Envelope, l: Limit, n: nat)
    ensures DecBody(e) == Item(LimitCapsule(l, n), [])
       <==> e.kind == Code(LimitCapsule(l, n)) && Holds(e.payload, LimitCapsule(l, n))
  {
    if GetVarint(e.payload).Ok? {
      ReadInt(e.payload);
      var (v, rest) := GetVarint(e.payload).value;
      assert Taken(e.payload, rest) == e.payload[..|e.payload| - |rest|];
    }
    if k: nat :| k <= |e.payload| && IsInt(e.payload[..k], n) {
      IntHead(e.payload, k, n);
    }
  }

  /** The parser gives out a capsule exactly when an envelope of its type holds it, and no other. */
  lemma CapsuleIff(b: Bytes, c: Capsule, rest: Bytes)
    ensures CapsuleStep(b) == Item(c, rest)
       <==> exists payload :: DecEnvelope(b) == Ok((Envelope(Code(c), payload), rest)) && Holds(payload, c)
  {
    if DecEnvelope(b).Ok? {
      var e := DecEnvelope(b).value.0;
      BodyIff(e, c);
      assert e == Envelope(e.kind, e.payload);
    }
  }

  /** Refused are close messages of more than 1024 bytes, and, as malformed, whatever is complete, not a limit cut
      short, and no capsule. */
  lemma RefusedIff(b: Bytes)
    ensures CapsuleStep(b) == Bad(CloseMessageTooLong)
       <==> DecEnvelope(b).Ok? && DecEnvelope(b).value.0.kind == 0x2843 && |DecEnvelope(b).value.0.payload| > 1028
    ensures CapsuleStep(b) == Bad(Malformed)
       <==> DecEnvelope(b).Ok? && CapsuleStep(b) != Bad(CloseMessageTooLong) && !CapsuleStep(b).NeedMore?
            && !exists c :: DecEnvelope(b).value.0.kind == Code(c) && Holds(DecEnvelope(b).value.0.payload, c)
  {
    if DecEnvelope(b).Ok? {
      var e := DecEnvelope(b).value.0;
      if c :| e.kind == Code(c) && Holds(e.payload, c) { BodyIff(e, c); }
      if DecBody(e).Item? { BodyIff(e, DecBody(e).item); }
    }
  }

  // ---- As the source runs it ----

  /** A capsule and the number of bytes it takes. */
  method DecodeCapsule(buf: Bytes) returns (r: Step<(Capsule, nat), CapsuleError>)
    ensures r == match CapsuleStep(buf)
                 case NeedMore => NeedMore
                 case Bad(e) => Bad(e)
                 case Item(c, rest) => Item((c, |buf| - |rest|), [])
    ensures r.Item? ==> buf[r.item.1..] == CapsuleStep(buf).rest
  {
    var d := H3Frames.DecodeFrame(buf);
    if d.None? {
      return NeedMore;
    }
    var (e, consumed) := d.value;
    var body := DecodeCapsuleBody(e);
    match body {
      case NeedMore => return NeedMore;
      case Bad(err) => return Bad(err);
      case Item(c, _) => return Item((c, consumed), []);
    }
  }

  /** By type: what the payload of a complete capsule means. */
  method DecodeCapsuleBody(e: Envelope) returns (r: Step<Capsule, CapsuleError>)
    ensures r == DecBody(e)
  {
    var payload := e.payload;
    if e.kind == CAPSULE_CLOSE_SESSION {
      if |payload| < 4 {
        return Bad(Malformed);
      }
      if |payload[4..]| > MAX_CLOSE_MESSAGE_LEN {
        return Bad(CloseMessageTooLong);
      }
      if !ValidUtf8(payload[4..]) {
        return Bad(Malformed);
      }
      return Item(CloseSession(Value(payload[..4]), payload[4..]), []);
    }
    if e.kind == CAPSULE_DRAIN_SESSION {
      if payload != [] {
        return Bad(Malformed);
      }
      return Item(DrainSession, []);
    }
    var limit := LimitOf(e.kind);
    if limit.None? {
      return Bad(Malformed);
    }
    var n := DecodeVarint(payload);
    if n.None? {
      return NeedMore;
    }
    return Item(LimitCapsule(limit.value, n.value.0), []);
  }

  /** The encoding is appended; what has been appended when a message is too long or a limit does not fit
      stays in the buffer. */
  method EncodeCapsule(c: Capsule, buf: Bytes) returns (r: Encoded, out: Bytes)
    ensures r == EncCapsule(c)
    ensures out == match r
                   case Written(b) => buf + b
                   case TooLong => buf + EncVarint(CapsuleType(c)).value
                   case Overflow => buf + EncVarint(CapsuleType(c)).value + [8]
  {
    var _, start := EncodeVarint(buf, CapsuleType(c));
    match c {
      case CloseSession(code, message) =>
        if |message| > MAX_CLOSE_MESSAGE_LEN {
          return TooLong, start;
        }
        out := AppendClose(start, code, message);
        WrittenForm(c, BigEndian(code, 4) + message, buf);
      case DrainSession =>
        OneByte(0);
        out := start + [0];
        WrittenForm(c, [], buf);
      case LimitCapsule(_, n) =>
        var ok;
        ok, out := AppendLimit(start, n);
        if !ok {
          return Overflow, out;
        }
        WrittenForm(c, EncVarint(n).value, buf);
    }
    r := EncCapsule(c);
  }

  method AppendClose(start: Bytes, code: nat, message: Bytes) returns (out: Bytes)
    requires |message| <= MAX_CLOSE_MESSAGE_LEN
    ensures out == start + EncVarint(|BigEndian(code, 4) + message|).value + (BigEndian(code, 4) + message)
  {
    var _, mid := EncodeVarint(start, 4 + |message|);
    return mid + BigEndian(code, 4) + message;
  }

  /** A limit that does not fit leaves its length behind. */
  method AppendLimit(start: Bytes, n: nat) returns (ok: bool, out: Bytes)
    ensures ok <==> n <= MAX_VARINT
    ensures ok ==> |EncVarint(n).value| <= 8
    ensures ok ==> out == start + EncVarint(|EncVarint(n).value|).value + EncVarint(n).value
    ensures !ok ==> out == start + [8]
  {
    var _, mid := EncodeVarint(start, VarintLen(n));
    ok, out := EncodeVarint(mid, n);
    if ok {
      VarintRoundTrip(n, []);
    } else {
      OneByte(8);
    }
  }

  lemma WrittenForm(c: Capsule, payload: Bytes, buf: Bytes)
    requires Payload(c) == Written(payload) && |payload| <= MAX_CLOSE_MESSAGE_LEN + 4
    ensures EncVarint(CapsuleType(c)).Some? && EncVarint(|payload|).Some? && EncCapsule(c).Written?
    ensures buf + EncCapsule(c).bytes == buf + EncVarint(CapsuleType(c)).value + EncVarint(|payload|).value + payload
  {
    var kind, len := EncVarint(CapsuleType(c)).value, EncVarint(|payload|).value;
    assert buf + (kind + (len + payload)) == buf + kind + len + payload;
  }

  /** One attempt, in terms of what is still to be drained. */
  method NextCapsule(buf: Bytes) returns (r: Step<(Capsule, nat), CapsuleError>)
    requires Consuming<Capsule, CapsuleError>(CapsuleStep)
    ensures r.NeedMore? ==> Drain<Capsule, CapsuleError>(CapsuleStep, buf) == ([], buf)
    ensures r.Bad? ==> Drain<Capsule, CapsuleError>(CapsuleStep, buf) == ([Failed(r.error)], buf)
    ensures r.Item? ==>
              0 < r.item.1 <= |buf| &&
              var (more, left) := Drain<Capsule, CapsuleError>(CapsuleStep, buf[r.item.1..]);
              Drain<Capsule, CapsuleError>(CapsuleStep, buf) == ([Got(r.item.0)] + more, left)
  {
    r := DecodeCapsule(buf);
  }

  lemma OneMore(done: seq<Outcome<Capsule, CapsuleError>>, x: Outcome<Capsule, CapsuleError>,
                more: seq<Outcome<Capsule, CapsuleError>>)
    ensures done + ([x] + more) == done + [x] + more
  {
  }

  lemma NoMore(rs: seq<Outcome<Capsule, CapsuleError>>)
    ensures rs + [] == rs && [] + rs == rs
  {
  }

  class CapsuleParser {
    var buf: Bytes

    constructor ()
      ensures buf == []
    {
      buf := [];
    }

    /** Take in data and give out every capsule that is now complete, up to the first error. */
    method Feed(data: Bytes) returns (results: seq<Outcome<Capsule, CapsuleError>>)
      modifies this
      ensures Consuming<Capsule, CapsuleError>(CapsuleStep)
      ensures (results, buf) == Drain<Capsule, CapsuleError>(CapsuleStep, old(buf) + data)
    {
      CapsuleStepStable();
      buf := buf + data;
      results := [];
      ghost var all := Drain<Capsule, CapsuleError>(CapsuleStep, buf);
      NoMore(all.0);
      while true
        invariant all == (results + Drain<Capsule, CapsuleError>(CapsuleStep, buf).0,
                          Drain<Capsule, CapsuleError>(CapsuleStep, buf).1)
        decreases |buf|
      {
        var d := NextCapsule(buf);
        match d {
          case NeedMore =>
            NoMore(results);
            return;
          case Bad(e) =>
            results := results + [Failed(e)];
            return;
          case Item(found, _) =>
            ghost var more := Drain<Capsule, CapsuleError>(CapsuleStep, buf[found.1..]).0;
            OneMore(results, Got(found.0), more);
            buf := buf[found.1..];
            results := results + [Got(found.0)];
        }
      }
    }
  }
}
