/** Encoding and decoding whole control messages, and what the two promise each other
    (section 9 of draft-ietf-moq-transport-16). */
module CodecFraming {
  import opened MoqTypes
  import opened CodecErrors
  import opened CodecFields
  import opened CodecMessages

  // ---- Encoding ----

  /** Type, 16-bit length, payload. */
  function EncFrame(code: nat, payload: Bytes): Result<Bytes> {
    var head :- PutVarint(code);
    if |payload| > MAX_PAYLOAD then Err(MessageTooLong) else Ok(head + [|payload| / 256, |payload| % 256] + payload)
  }

  function EncMessage(m: ControlMessage): Result<Bytes> {
    var payload :- EncFields(Fields(m));
    EncFrame(MessageType(m), payload)
  }

  // ---- Decoding ----

  function GetU16(b: Bytes): (r: Result<(nat, Bytes)>)
    ensures r.Ok? ==> |r.value.1| < |b|
  {
    if |b| < 2 then Err(BufferTooShort) else var hi: nat := b[0]; Ok((256 * hi + b[1], b[2..]))
  }

  /** Type, payload, and what follows the message. */
  function Frame(b: Bytes): (r: Result<(nat, Bytes, Bytes)>)
    ensures r.Ok? ==> |r.value.2| < |b|
    ensures r.Err? ==> r.error == BufferTooShort
  {
    var (code, afterType) :- GetVarint(b);
    var (len, afterLen) :- GetU16(afterType);
    var (payload, rest) :- GetBytes(afterLen, len);
    Ok((code, payload, rest))
  }

  /** The fields that follow the first two of a FETCH. */
  function FormOf(head: seq<Field>): Option<seq<Kind>> {
    if |head| == 2 && head[1].Number? then FetchKinds(head[1].n) else None
  }

  /** Of FETCH the fields after the first two depend on its form. */
  function DecFetch(b: Bytes): Result<(seq<Field>, Bytes)> {
    var (head, rest) :- DecFields([KNumber, KNumber], b);
    if FormOf(head).None? then Err(ProtocolViolation) else After(head, DecFields(FormOf(head).value, rest))
  }

  function DecPayload(code: nat, b: Bytes): Result<(seq<Field>, Bytes)> {
    if code == MSG_FETCH then DecFetch(b)
    else if Layout(code).None? then Err(UnknownMessageType(code))
    else DecFields(Layout(code).value, b)
  }

  /** The message a complete payload stands for; bytes left over are a violation. */
  function DecBody(code: nat, payload: Bytes): Result<ControlMessage> {
    var fields := DecPayload(code, payload);
    if fields.Err? then Err(fields.error)
    else if fields.value.1 != [] then Err(ProtocolViolation)
    else PayloadShrinks(code, payload); Ok(Build(code, fields.value.0))
  }

  function Counted(m: Result<ControlMessage>, n: nat): Result<(ControlMessage, nat)> {
    if m.Err? then Err(m.error) else Ok((m.value, n))
  }

  /** What a reader of payloads makes of a frame found in n bytes. */
  function Framed(
    body: (nat, Bytes) -> Result<ControlMessage>, frame: Result<(nat, Bytes, Bytes)>, n: nat
  ): Result<(ControlMessage, nat)>
    requires frame.Ok? ==> |frame.value.2| <= n
  {
    if frame.Err? then Err(frame.error) else Counted(body(frame.value.0, frame.value.1), n - |frame.value.2|)
  }

  /** The message and the number of bytes it took. */
  function DecMessage(b: Bytes): (r: Result<(ControlMessage, nat)>)
    ensures r.Ok? ==> 0 < r.value.1 <= |b|
  {
    Framed(DecBody, Frame(b), |b|)
  }

  /** The answer to a complete message depends on its type, its payload and its length only. */
  lemma FramedAlike(body: (nat, Bytes) -> Result<ControlMessage>,
                    x: Result<(nat, Bytes, Bytes)>, m: nat, y: Result<(nat, Bytes, Bytes)>, n: nat)
    requires x.Ok? && y.Ok? && x.value.0 == y.value.0 && x.value.1 == y.value.1
    requires |x.value.2| <= m && |y.value.2| <= n && m - |x.value.2| == n - |y.value.2|
    ensures Framed(body, x, m) == Framed(body, y, n)
  {
  }

  // ---- Payloads ----

  /** Whatever is read from a payload has the shape of its type, is acceptable, and can be written in no more bytes. */
  lemma PayloadShrinks(code: nat, b: Bytes)
    requires DecPayload(code, b).Ok?
    ensures var (fs, left) := DecPayload(code, b).value;
            && Shaped(code, fs) && AllTyped(fs) && AllOk(fs) && CanonFields(fs) == fs
            && EncFields(fs).Ok? && |EncFields(fs).value| + |left| <= |b|
  {
    if code == MSG_FETCH {
      FetchShrinks(b);
    } else {
      FieldsShrink(Layout(code).value, b);
    }
  }

  lemma FetchShrinks(b: Bytes)
    requires DecFetch(b).Ok?
    ensures var (fs, left) := DecFetch(b).value;
            && Shaped(MSG_FETCH, fs) && AllTyped(fs) && AllOk(fs) && CanonFields(fs) == fs
            && EncFields(fs).Ok? && |EncFields(fs).value| + |left| <= |b|
  {
    var kinds := [KNumber, KNumber];
    FieldsShrink(kinds, b);
    var (head, rest) := DecFields(kinds, b).value;
    assert KindOf(head[0]) == KNumber && KindOf(head[1]) == KNumber;
    var more := FormOf(head).value;
    AllSplit(DecField, kinds, more, b);
    FieldsShrink(kinds + more, b);
    var (fs, left) := DecFields(kinds + more, b).value;
    FetchShape(fs, head, more);
  }

  lemma FetchShape(fs: seq<Field>, head: seq<Field>, more: seq<Kind>)
    requires |head| == 2 <= |fs| && fs[..2] == head && head[0].Number? && head[1].Number?
    requires FetchKinds(head[1].n) == Some(more) && Kinds(fs) == [KNumber, KNumber] + more
    ensures Shaped(MSG_FETCH, fs)
  {
    assert Kinds(fs[2..]) == Kinds(fs)[2..];
  }

  lemma {:induction false} EncAllAppend(enc: Field -> Result<Bytes>, xs: seq<Field>, ys: seq<Field>)
    requires EncAll(enc, xs + ys).Ok?
    ensures EncAll(enc, xs).Ok? && EncAll(enc, ys).Ok?
    ensures EncAll(enc, xs + ys).value == EncAll(enc, xs).value + EncAll(enc, ys).value
    decreases |xs|
  {
    if xs == [] {
      assert xs + ys == ys;
    } else {
      assert (xs + ys)[1..] == xs[1..] + ys;
      EncAllAppend(enc, xs[1..], ys);
    }
  }

  /** Reading a payload inverts writing it, up to the sorting of parameters. */
  lemma PayloadBack(code: nat, fs: seq<Field>)
    requires Shaped(code, fs) && AllTyped(fs) && EncFields(fs).Ok?
    ensures DecPayload(code, EncFields(fs).value)
            == if AllOk(fs) then Ok((CanonFields(fs), [])) else Err(ProtocolViolation)
  {
    var b := EncFields(fs).value;
    if code == MSG_FETCH {
      FetchBack(fs);
    } else {
      FieldsBack(fs, []);
      assert b + [] == b;
    }
  }

  lemma FetchHead(fs: seq<Field>)
    requires Shaped(MSG_FETCH, fs) && AllTyped(fs)
    ensures Kinds(fs[..2]) == [KNumber, KNumber] && FormOf(fs[..2]) == Some(Kinds(fs[2..]))
    ensures AllTyped(fs[..2]) && AllTyped(fs[2..])
    ensures ExtsLast(Kinds(fs[2..])) && !Unbounded(Kinds(fs[2..]))
  {
  }

  lemma FetchHeadPlain(fs: seq<Field>)
    requires Shaped(MSG_FETCH, fs)
    ensures CanonFields(fs[..2]) == fs[..2] && AllOk(fs[..2])
    ensures CanonFields(fs) == fs[..2] + CanonFields(fs[2..])
    ensures AllOk(fs) <==> AllOk(fs[2..])
  {
    assert fs == fs[..2] + fs[2..];
  }

  lemma FetchBack(fs: seq<Field>)
    requires Shaped(MSG_FETCH, fs) && AllTyped(fs) && EncFields(fs).Ok?
    ensures DecPayload(MSG_FETCH, EncFields(fs).value)
            == if AllOk(fs) then Ok((CanonFields(fs), [])) else Err(ProtocolViolation)
  {
    var head, tail := fs[..2], fs[2..];
    FetchHead(fs);
    FetchHeadPlain(fs);
    assert fs == head + tail;
    EncAllAppend(EncField, head, tail);
    var b2 := EncFields(tail).value;
    FieldsBack(head, b2);
    FieldsBack(tail, []);
    assert b2 + [] == b2;
    FetchAfterHead(EncFields(fs).value, head, b2);
  }

  lemma FetchAfterHead(b: Bytes, head: seq<Field>, rest: Bytes)
    requires DecFields([KNumber, KNumber], b) == Ok((head, rest)) && FormOf(head).Some?
    ensures DecFetch(b) == After(head, DecFields(FormOf(head).value, rest))
  {
  }
}
