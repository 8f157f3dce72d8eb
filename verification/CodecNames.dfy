/** Track namespaces, their prefixes, and reason phrases (`types.rs`). */
module CodecNames {
  import opened MoqTypes
  import opened Utf8
  import opened CodecErrors
  import opened CodecChains

  const MAX_TRACK_NAMESPACE_FIELDS: nat := 32
  const MAX_FULL_TRACK_NAME_BYTES: nat := 4096
  const MAX_REASON_PHRASE_BYTES: nat := 1024

  // ---- Namespaces ----

  predicate PartOk(total: nat, part: Bytes) {
    part != [] && total + |part| <= MAX_FULL_TRACK_NAME_BYTES
  }

  function EncPart(total: nat, part: Bytes): Result<Bytes> { PutPrefixed(part) }

  function BytesSoFar(total: nat, part: Bytes): nat { total + |part| }

  /** One field after total bytes of fields: not empty, and within the limit together with those. */
  function DecPart(total: nat, b: Bytes): Result<(Bytes, Bytes)> {
    var (part, rest) :- GetPrefixed(b);
    if PartOk(total, part) then Ok((part, rest)) else Err(ProtocolViolation)
  }

  function PartCodec(): Codec<nat, Bytes> {
    Codec(EncPart, DecPart, PartOk, BytesSoFar)
  }

  /** The encoder writes any list of fields. */
  function EncNamespace(ns: Namespace): Result<Bytes> {
    var count :- PutVarint(|ns|);
    var parts :- EncChain(PartCodec(), 0, ns);
    Ok(count + parts)
  }

  /** A namespace has at least one field, a prefix may have none. */
  function DecNamespace(least: nat, b: Bytes): Result<(Namespace, Bytes)> {
    var (count, rest) :- GetVarint(b);
    if count < least || count > MAX_TRACK_NAMESPACE_FIELDS then Err(ProtocolViolation)
    else DecChain(PartCodec(), 0, count, rest)
  }

  function TotalBytes(parts: seq<Bytes>): nat {
    if parts == [] then 0 else |parts[0]| + TotalBytes(parts[1..])
  }

  /** What `TrackNamespace::new` accepts, with least == 1. */
  predicate NamespaceOk(least: nat, ns: Namespace) {
    && least <= |ns| <= MAX_TRACK_NAMESPACE_FIELDS
    && (forall i :: 0 <= i < |ns| ==> ns[i] != [])
    && TotalBytes(ns) <= MAX_FULL_TRACK_NAME_BYTES
  }

  lemma PartCodecSound()
    ensures Sound(PartCodec())
  {
    var c := PartCodec();
    forall total, part, rest | c.enc(total, part).Ok?
      ensures c.dec(total, c.enc(total, part).value + rest)
           == if c.accepts(total, part) then Ok((part, rest)) else Err(ProtocolViolation)
    {
      PrefixedBack(part, rest);
    }
    forall total, b | c.dec(total, b).Ok?
      ensures Rewritable(c, total, c.dec(total, b).value.0, |b| - |c.dec(total, b).value.1|)
    {
      PrefixedShrinks(b);
    }
  }

  lemma {:induction false} AcceptedParts(total: nat, parts: seq<Bytes>)
    requires total <= MAX_FULL_TRACK_NAME_BYTES
    ensures Accepted(PartCodec(), total, parts)
       <==> (forall i :: 0 <= i < |parts| ==> parts[i] != []) && total + TotalBytes(parts) <= MAX_FULL_TRACK_NAME_BYTES
    decreases |parts|
  {
    if parts != [] {
      assert parts == [parts[0]] + parts[1..];
      assert (forall i :: 0 <= i < |parts| ==> parts[i] != [])
        <==> parts[0] != [] && (forall i :: 0 <= i < |parts[1..]| ==> parts[1..][i] != []);
      if total + |parts[0]| <= MAX_FULL_TRACK_NAME_BYTES {
        AcceptedParts(total + |parts[0]|, parts[1..]);
      }
    }
  }

  /** Decoding accepts an encoded namespace exactly when it is a proper one, and then gives it back. */
  lemma NamespaceBack(least: nat, ns: Namespace, rest: Bytes)
    requires EncNamespace(ns).Ok?
    ensures DecNamespace(least, EncNamespace(ns).value + rest)
         == if NamespaceOk(least, ns) then Ok((ns, rest)) else Err(ProtocolViolation)
  {
    var count, parts := PutVarint(|ns|).value, EncChain(PartCodec(), 0, ns).value;
    assert count + parts + rest == count + (parts + rest);
    VarintBack(|ns|, parts + rest);
    PartCodecSound();
    ChainBack(PartCodec(), 0, ns, rest);
    AcceptedParts(0, ns);
  }

  lemma NamespaceShrinks(least: nat, b: Bytes)
    requires DecNamespace(least, b).Ok?
    ensures var (ns, rest) := DecNamespace(least, b).value;
            NamespaceOk(least, ns) && EncNamespace(ns).Ok? && |EncNamespace(ns).value| + |rest| <= |b|
  {
    var (count, rest) := GetVarint(b).value;
    VarintShrinks(b);
    PartCodecSound();
    ChainShrinks(PartCodec(), 0, count, rest);
    AcceptedParts(0, DecNamespace(least, b).value.0);
  }

  // ---- Bounded byte strings ----

  function EncReason(b: Bytes): Result<Bytes> {
    if |b| > MAX_REASON_PHRASE_BYTES then Err(ReasonPhraseTooLong) else PutPrefixed(b)
  }

  /** A length-prefixed byte string of at most limit bytes. */
  function GetBounded(limit: nat, b: Bytes): (r: Result<(Bytes, Bytes)>)
    ensures r.Ok? ==> |r.value.1| < |b|
  {
    var (len, rest) :- GetVarint(b);
    if len > limit then Err(ProtocolViolation) else GetBytes(rest, len)
  }

  function DecReason(b: Bytes): (r: Result<(Bytes, Bytes)>)
    ensures r.Ok? ==> |r.value.1| < |b|
  {
    var (text, rest) :- GetBounded(MAX_REASON_PHRASE_BYTES, b);
    if ValidUtf8(text) then Ok((text, rest)) else Err(ProtocolViolation)
  }

  lemma BoundedBack(limit: nat, b: Bytes, rest: Bytes)
    requires PutPrefixed(b).Ok?
    ensures GetBounded(limit, PutPrefixed(b).value + rest)
            == if |b| <= limit then Ok((b, rest)) else Err(ProtocolViolation)
  {
    var len := PutVarint(|b|).value;
    assert len + b + rest == len + (b + rest);
    VarintBack(|b|, b + rest);
    BytesBack(b, rest);
  }

  lemma BoundedShrinks(limit: nat, b: Bytes)
    requires GetBounded(limit, b).Ok?
    ensures var (x, rest) := GetBounded(limit, b).value;
            |x| <= limit && PutPrefixed(x).Ok? && |PutPrefixed(x).value| + |rest| <= |b|
  {
    VarintShrinks(b);
  }
}
