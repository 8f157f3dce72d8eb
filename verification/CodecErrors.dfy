/** Results, and the smallest readers and writers of the codec (`codec.rs`): a reader returns
    what it read and the bytes it left. */
module CodecErrors {
  import opened MoqTypes
  import opened Varint

  /** The errors the source returns, and Fault: the panic of a vector asked to hold more than memory can address. */
  datatype Error =
    | BufferTooShort
    | VarintOverflow
    | MessageTooLong
    | UnknownMessageType(code: nat)
    | ProtocolViolation
    | ReasonPhraseTooLong
    | KeyValueFormattingError
    | InvalidValue
    | Fault

  datatype Result<+T> = Ok(value: T) | Err(error: Error) {
    predicate IsFailure() { Err? }
    function PropagateFailure<U>(): Result<U>
      requires Err?
    {
      Err(error)
    }
    function Extract(): T
      requires Ok?
    {
      value
    }
  }

  // ---- Writers ----

  function PutVarint(n: nat): Result<Bytes> {
    match EncVarint(n) case None => Err(VarintOverflow) case Some(b) => Ok(b)
  }

  function PutPrefixed(b: Bytes): Result<Bytes> {
    var len :- PutVarint(|b|);
    Ok(len + b)
  }

  // ---- Readers ----

  function GetVarint(b: Bytes): (r: Result<(nat, Bytes)>)
    ensures r.Ok? ==> |r.value.1| < |b|
  {
    match DecVarint(b)
    case None => Err(BufferTooShort)
    case Some((v, n)) => VarintMinimal(b); Ok((v, b[n..]))
  }

  function GetBytes(b: Bytes, len: nat): (r: Result<(Bytes, Bytes)>)
    ensures r.Ok? ==> |r.value.0| == len && |b| == len + |r.value.1|
  {
    if |b| < len then Err(BufferTooShort) else Ok((b[..len], b[len..]))
  }

  function GetByte(b: Bytes): (r: Result<(Byte, Bytes)>)
    ensures r.Ok? ==> |r.value.1| + 1 == |b|
  {
    if b == [] then Err(BufferTooShort) else Ok((b[0], b[1..]))
  }

  function GetPrefixed(b: Bytes): (r: Result<(Bytes, Bytes)>)
    ensures r.Ok? ==> |r.value.1| < |b|
  {
    var (len, rest) :- GetVarint(b);
    GetBytes(rest, len)
  }

  // ---- Round trips ----

  lemma VarintFits(n: nat)
    ensures PutVarint(n).Ok? <==> n <= MAX_VARINT
    ensures n <= MAX_VARINT ==> |PutVarint(n).value| == VarintLen(n)
  {
    if n <= MAX_VARINT { VarintRoundTrip(n, []); }
  }

  lemma VarintBack(n: nat, rest: Bytes)
    requires PutVarint(n).Ok?
    ensures GetVarint(PutVarint(n).value + rest) == Ok((n, rest))
  {
    VarintRoundTrip(n, rest);
    var b := PutVarint(n).value;
    assert (b + rest)[|b|..] == rest;
  }

  /** Bytes after a complete varint stay. */
  lemma VarintGrows(b: Bytes, more: Bytes)
    requires GetVarint(b).Ok?
    ensures GetVarint(b + more) == Ok((GetVarint(b).value.0, GetVarint(b).value.1 + more))
  {
    VarintStable(b, more);
    VarintMinimal(b);
    var n := DecVarint(b).value.1;
    assert (b + more)[n..] == b[n..] + more;
  }

  lemma BytesBack(b: Bytes, rest: Bytes)
    ensures GetBytes(b + rest, |b|) == Ok((b, rest))
  {
  }

  lemma PrefixedBack(b: Bytes, rest: Bytes)
    requires PutPrefixed(b).Ok?
    ensures GetPrefixed(PutPrefixed(b).value + rest) == Ok((b, rest))
  {
    var len := PutVarint(|b|).value;
    assert len + b + rest == len + (b + rest);
    VarintBack(|b|, b + rest);
    BytesBack(b, rest);
  }

  /** What was read can be written again, in no more bytes. */
  lemma VarintShrinks(b: Bytes)
    requires GetVarint(b).Ok?
    ensures var (n, rest) := GetVarint(b).value; PutVarint(n).Ok? && |PutVarint(n).value| + |rest| <= |b|
  {
    VarintMinimal(b);
    VarintRoundTrip(GetVarint(b).value.0, []);
  }

  lemma PrefixedShrinks(b: Bytes)
    requires GetPrefixed(b).Ok?
    ensures var (x, rest) := GetPrefixed(b).value; PutPrefixed(x).Ok? && |PutPrefixed(x).value| + |rest| <= |b|
  {
    VarintShrinks(b);
  }
}
