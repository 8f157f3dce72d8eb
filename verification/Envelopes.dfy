/** Type, length, payload: the outer form of HTTP/3 frames (section 7.1 of RFC 9114) and of capsules
    (section 3.2 of RFC 9297), both with varint headers. */
module Envelopes {
  import opened MoqTypes
  import opened CodecErrors
  import opened WireForms

  datatype Envelope = Envelope(kind: nat, payload: Bytes)

  function EncEnvelope(e: Envelope): Result<Bytes> {
    var kind :- PutVarint(e.kind);
    var body :- PutPrefixed(e.payload);
    Ok(kind + body)
  }

  /** The envelope and what follows it; failure means that bytes are missing. */
  function DecEnvelope(b: Bytes): (r: Result<(Envelope, Bytes)>)
    ensures r.Ok? ==> |r.value.1| < |b|
    ensures r.Err? ==> r.error == BufferTooShort
  {
    var (kind, afterKind) :- GetVarint(b);
    var (payload, rest) :- GetPrefixed(afterKind);
    Ok((Envelope(kind, payload), rest))
  }

  lemma EnvelopeBack(e: Envelope, rest: Bytes)
    requires EncEnvelope(e).Ok?
    ensures DecEnvelope(EncEnvelope(e).value + rest) == Ok((e, rest))
  {
    var kind, body := PutVarint(e.kind).value, PutPrefixed(e.payload).value;
    assert EncEnvelope(e).value + rest == kind + (body + rest);
    VarintBack(e.kind, body + rest);
    PrefixedBack(e.payload, rest);
  }

  lemma PrefixedGrows(b: Bytes, more: Bytes)
    requires GetPrefixed(b).Ok?
    ensures GetPrefixed(b + more) == Ok((GetPrefixed(b).value.0, GetPrefixed(b).value.1 + more))
  {
    VarintGrows(b, more);
    var (len, rest) := GetVarint(b).value;
    assert (rest + more)[..len] == rest[..len] && (rest + more)[len..] == rest[len..] + more;
  }

  /** Bytes after an envelope do not change it. */
  lemma EnvelopeGrows(b: Bytes, more: Bytes)
    requires DecEnvelope(b).Ok?
    ensures DecEnvelope(b + more) == Ok((DecEnvelope(b).value.0, DecEnvelope(b).value.1 + more))
  {
    VarintGrows(b, more);
    PrefixedGrows(GetVarint(b).value.1, more);
  }

  /** Its headers can be rewritten in no more bytes. */
  lemma EnvelopeShrinks(b: Bytes)
    requires DecEnvelope(b).Ok?
    ensures var (e, rest) := DecEnvelope(b).value; EncEnvelope(e).Ok? && |EncEnvelope(e).value| + |rest| <= |b|
  {
    VarintShrinks(b);
    PrefixedShrinks(GetVarint(b).value.1);
  }

  /** A payload rewritten in no more bytes makes the envelope no longer. */
  lemma SmallerPayload(e: Envelope, payload: Bytes)
    requires EncEnvelope(e).Ok? && |payload| <= |e.payload|
    ensures EncEnvelope(Envelope(e.kind, payload)).Ok?
    ensures |EncEnvelope(Envelope(e.kind, payload)).value| <= |EncEnvelope(e).value|
  {
    VarintFits(|payload|);
    VarintFits(|e.payload|);
  }

  // ---- Byte by byte ----

  /** Written are the shortest varints of type and length, in this order, and then the payload. */
  lemma EnvelopeWire(e: Envelope)
    ensures EncEnvelope(e) == Cat([Int(e.kind), Int(|e.payload|), Ok(e.payload)])
  {
    IntIs(e.kind);
    StrIs(e.payload);
    var len: seq<Result<Bytes>> := [Int(|e.payload|), Ok(e.payload)];
    CatAppend([Int(e.kind)], len);
    assert [Int(e.kind)] + len == [Int(e.kind), Int(|e.payload|), Ok(e.payload)];
    CatOne(Int(e.kind));
    CatTwo(Int(e.kind), Str(e.payload));
  }

  /** Read is the same with any length of the varints, and nothing else. */
  lemma EnvelopeIff(b: Bytes, e: Envelope, rest: Bytes)
    ensures DecEnvelope(b) == Ok((e, rest)) <==> Splits(b, rest) && Is([IntL(e.kind), StrL(e.payload)], Taken(b, rest))
  {
    if DecEnvelope(b) == Ok((e, rest)) { ReadEnvelope(b, e, rest); }
    if Splits(b, rest) && Is([IntL(e.kind), StrL(e.payload)], Taken(b, rest)) {
      EnvelopeReads(Taken(b, rest), e, rest);
    }
  }

  lemma ReadEnvelope(b: Bytes, e: Envelope, rest: Bytes)
    requires DecEnvelope(b) == Ok((e, rest))
    ensures Splits(b, rest) && Is([IntL(e.kind), StrL(e.payload)], Taken(b, rest))
  {
    var more := GetVarint(b).value.1;
    ReadInt(b);
    ReadStr(more);
    TakenBoth(b, more, rest);
    IsBoth(IntL(e.kind), StrL(e.payload), Taken(b, more), Taken(more, rest));
  }

  lemma EnvelopeReads(p: Bytes, e: Envelope, rest: Bytes)
    requires Is([IntL(e.kind), StrL(e.payload)], p)
    ensures DecEnvelope(p + rest) == Ok((e, rest))
  {
    var k := IsFirstOfTwo(IntL(e.kind), StrL(e.payload), p);
    IntFirst(p, k, e.kind, rest);
    StrReads(p[k..], e.payload, rest);
  }
}
