/** Encoding as the source runs it: every encoder appends to one growing buffer. */
module CodecBuffer {
  import opened MoqTypes
  import opened Varint
  import opened CodecErrors
  import opened CodecChains
  import opened CodecKeyValues
  import opened CodecNames
  import opened CodecFields
  import opened CodecMessages
  import opened CodecFraming

  datatype Outcome = Pass | Fail(error: Error) {
    predicate IsFailure() { Fail? }
    function PropagateFailure(): Outcome
      requires Fail?
    {
      this
    }
  }

  /** The encoder appended what the specification writes, or failed as it does, leaving what was there. */
  ghost predicate Writes(o: Outcome, spec: Result<Bytes>, before: Bytes, after: Bytes) {
    if spec.Ok? then o == Pass && after == before + spec.value else o == Fail(spec.error) && before <= after
  }

  class Buffer {
    var data: Bytes

    constructor ()
      ensures data == []
    {
      data := [];
    }

    method WriteU8(x: Byte)
      modifies this
      ensures data == old(data) + [x]
    {
      data := data + [x];
    }

    method WriteU16(n: nat)
      requires n <= 65535
      modifies this
      ensures data == old(data) + [n / 256, n % 256]
    {
      data := data + [n / 256, n % 256];
    }

    method WriteBytes(bytes: Bytes)
      modifies this
      ensures data == old(data) + bytes
    {
      data := data + bytes;
    }

    method WriteVarint(n: nat) returns (o: Outcome)
      modifies this
      ensures Writes(o, PutVarint(n), old(data), data)
      ensures o.Fail? ==> data == old(data)
    {
      var ok, out := EncodeVarint(data, n);
      if !ok {
        return Fail(VarintOverflow);
      }
      data := out;
      return Pass;
    }

    method WritePrefixedBytes(bytes: Bytes) returns (o: Outcome)
      modifies this
      ensures Writes(o, PutPrefixed(bytes), old(data), data)
    {
      var len := |bytes|;
      :- WriteVarint(len);
      ghost var head := data;
      WriteBytes(bytes);
      assert old(data) + PutPrefixed(bytes).value == head + bytes;
      return Pass;
    }
  }

  // ---- Writing loops: the bytes so far, and what is left to do ----

  ghost function WriteFrom<S(!new), T(!new)>(c: Codec<S, T>, s: S, xs: seq<T>, done: Bytes): Result<Bytes>
    decreases |xs|
  {
    if xs == [] then Ok(done)
    else
      var first :- c.enc(s, xs[0]);
      WriteFrom(c, c.next(s, xs[0]), xs[1..], done + first)
  }

  lemma {:induction false} WriteFromMeans<S(!new), T(!new)>(c: Codec<S, T>, s: S, xs: seq<T>, done: Bytes)
    ensures var r := EncChain(c, s, xs); WriteFrom(c, s, xs, done) == (if r.Err? then r else Ok(done + r.value))
    decreases |xs|
  {
    assert done + [] == done;
    if xs != [] && c.enc(s, xs[0]).Ok? {
      var first := c.enc(s, xs[0]).value;
      WriteFromMeans(c, c.next(s, xs[0]), xs[1..], done + first);
      var rest := EncChain(c, c.next(s, xs[0]), xs[1..]);
      if rest.Ok? { assert done + (first + rest.value) == done + first + rest.value; }
    }
  }

  ghost function PairsLeft(prev: nat, ps: seq<KeyValuePair>, done: Bytes): Result<Bytes> {
    WriteFrom(PairCodec(), prev, ps, done)
  }

  ghost function PartsLeft(total: nat, parts: seq<Bytes>, done: Bytes): Result<Bytes> {
    WriteFrom(PartCodec(), total, parts, done)
  }

  lemma PairsLeftStart(ps: seq<KeyValuePair>, done: Bytes)
    ensures PairsLeft(0, ps, done) == (if EncPairs(ps).Err? then EncPairs(ps) else Ok(done + EncPairs(ps).value))
  {
    WriteFromMeans(PairCodec(), 0, ps, done);
  }

  lemma PartsLeftStart(parts: seq<Bytes>, done: Bytes)
    ensures var r := EncChain(PartCodec(), 0, parts);
            PartsLeft(0, parts, done) == (if r.Err? then r else Ok(done + r.value))
  {
    WriteFromMeans(PartCodec(), 0, parts, done);
  }

  lemma PairWritten(prev: nat, ps: seq<KeyValuePair>, i: nat, done: Bytes)
    requires i < |ps|
    ensures var r := EncPair(prev, ps[i]);
            PairsLeft(prev, ps[i..], done)
            == if r.Err? then r else PairsLeft(ps[i].key, ps[i + 1..], done + r.value)
  {
    assert ps[i..][1..] == ps[i + 1..];
  }

  lemma PartWritten(total: nat, parts: seq<Bytes>, i: nat, done: Bytes)
    requires i < |parts|
    ensures var r := PutPrefixed(parts[i]);
            PartsLeft(total, parts[i..], done)
            == if r.Err? then r else PartsLeft(total + |parts[i]|, parts[i + 1..], done + r.value)
  {
    assert parts[i..][1..] == parts[i + 1..];
    assert parts[i..][0] == parts[i];
  }

  // ---- Field encoders ----

  method EncodeNamespace(buf: Buffer, ns: Namespace) returns (o: Outcome)
    modifies buf
    ensures Writes(o, EncNamespace(ns), old(buf.data), buf.data)
  {
    var count := |ns|;
    :- buf.WriteVarint(count);
    o := EncodeParts(buf, ns);
  }

  method EncodeParts(buf: Buffer, parts: seq<Bytes>) returns (o: Outcome)
    modifies buf
    ensures Writes(o, EncChain(PartCodec(), 0, parts), old(buf.data), buf.data)
  {
    ghost var total: nat := 0;
    PartsLeftStart(parts, buf.data);
    ghost var spec := PartsLeft(0, parts, buf.data);
    assert parts[0..] == parts;
    for i := 0 to |parts|
      invariant spec == PartsLeft(total, parts[i..], buf.data) && old(buf.data) <= buf.data
    {
      PartWritten(total, parts, i, buf.data);
      :- buf.WritePrefixedBytes(parts[i]);
      total := total + |parts[i]|;
    }
    return Pass;
  }

  method EncodeReason(buf: Buffer, text: Bytes) returns (o: Outcome)
    modifies buf
    ensures Writes(o, EncReason(text), old(buf.data), buf.data)
  {
    if |text| > MAX_REASON_PHRASE_BYTES {
      return Fail(ReasonPhraseTooLong);
    }
    o := buf.WritePrefixedBytes(text);
  }

  method EncodePair(buf: Buffer, prevType: nat, pair: KeyValuePair) returns (o: Outcome)
    modifies buf
    ensures Writes(o, EncPair(prevType, pair), old(buf.data), buf.data)
  {
    if pair.key < prevType {
      return Fail(KeyValueFormattingError);
    }
    :- buf.WriteVarint(pair.key - prevType);
    ghost var head := buf.data;
    match pair.value
    case Varint(v) =>
      if pair.key % 2 != 0 {
        return Fail(KeyValueFormattingError);
      }
      o := buf.WriteVarint(v);
    case Blob(b) =>
      if pair.key % 2 != 1 {
        return Fail(KeyValueFormattingError);
      }
      if |b| > MAX_KV_VALUE_BYTES {
        return Fail(KeyValueFormattingError);
      }
      o := buf.WritePrefixedBytes(b);
  }

  method EncodeKeyValuePairs(buf: Buffer, pairs: seq<KeyValuePair>) returns (o: Outcome)
    modifies buf
    ensures Writes(o, EncPairs(pairs), old(buf.data), buf.data)
  {
    var prevType: nat := 0;
    PairsLeftStart(pairs, buf.data);
    ghost var spec := PairsLeft(0, pairs, buf.data);
    assert pairs[0..] == pairs;
    for i := 0 to |pairs|
      invariant spec == PairsLeft(prevType, pairs[i..], buf.data) && old(buf.data) <= buf.data
    {
      PairWritten(prevType, pairs, i, buf.data);
      :- EncodePair(buf, prevType, pairs[i]);
      prevType := pairs[i].key;
    }
    return Pass;
  }

  /** A sorted copy, by insertion from the back. */
  method SortedByKey(ps: seq<KeyValuePair>) returns (sorted: seq<KeyValuePair>)
    ensures sorted == Sorted(ps)
    ensures Ascending(0, sorted)
  {
    sorted := [];
    for i := |ps| downto 0
      invariant sorted == Sorted(ps[i..])
    {
      assert ps[i..][1..] == ps[i + 1..];
      sorted := Insert(ps[i], sorted);
    }
    assert ps[0..] == ps;
    SortedIsStableSort(ps, 0);
  }

  method EncodeParameters(buf: Buffer, ps: Parameters) returns (o: Outcome)
    modifies buf
    ensures Writes(o, EncParameters(ps), old(buf.data), buf.data)
  {
    var sorted := SortedByKey(ps);
    :- buf.WriteVarint(|sorted|);
    o := EncodeKeyValuePairs(buf, sorted);
  }

  method EncodeField(buf: Buffer, f: Field) returns (o: Outcome)
    modifies buf
    ensures Writes(o, EncField(f), old(buf.data), buf.data)
  {
    match f
    case Number(n) => o := buf.WriteVarint(n);
    case Name(b) => o := buf.WritePrefixedBytes(b);
    case Uri(b) => o := buf.WritePrefixedBytes(b);
    case Reason(b) => o := EncodeReason(buf, b);
    case Space(ns) => o := EncodeNamespace(buf, ns);
    case Prefix(ns) => o := EncodeNamespace(buf, ns);
    case Flag(flag) => buf.WriteU8(if flag then 1 else 0); o := Pass;
    case Options(option) => o := buf.WriteVarint(OptionCode(option));
    case Params(ps) => o := EncodeParameters(buf, ps);
    case Exts(exts) => o := EncodeKeyValuePairs(buf, exts);
  }

  // ---- Messages ----

  ghost function FieldsLeft(fs: seq<Field>, done: Bytes): Result<Bytes> {
    if fs == [] then Ok(done)
    else
      var first :- EncField(fs[0]);
      FieldsLeft(fs[1..], done + first)
  }

  lemma {:induction false} FieldsLeftMeans(fs: seq<Field>, done: Bytes)
    ensures FieldsLeft(fs, done) == (if EncFields(fs).Err? then EncFields(fs) else Ok(done + EncFields(fs).value))
  {
    assert done + [] == done;
    if fs != [] && EncField(fs[0]).Ok? {
      var first := EncField(fs[0]).value;
      FieldsLeftMeans(fs[1..], done + first);
      var rest := EncFields(fs[1..]);
      if rest.Ok? { assert done + (first + rest.value) == done + first + rest.value; }
    }
  }

  /** A payload, field by field. */
  method EncodePayload(buf: Buffer, m: ControlMessage) returns (o: Outcome)
    modifies buf
    ensures Writes(o, EncFields(Fields(m)), old(buf.data), buf.data)
  {
    var fs := Fields(m);
    FieldsLeftMeans(fs, buf.data);
    ghost var spec := FieldsLeft(fs, buf.data);
    assert fs[0..] == fs;
    for i := 0 to |fs|
      invariant spec == FieldsLeft(fs[i..], buf.data) && old(buf.data) <= buf.data
    {
      assert fs[i..][1..] == fs[i + 1..];
      :- EncodeField(buf, fs[i]);
    }
    return Pass;
  }

  lemma EncMessageIs(m: ControlMessage)
    ensures PutVarint(MessageType(m)).Ok?
    ensures var payload := EncFields(Fields(m));
            EncMessage(m)
            == if payload.Err? then payload
               else if |payload.value| > MAX_PAYLOAD then Err(MessageTooLong)
               else Ok(PutVarint(MessageType(m)).value + [|payload.value| / 256, |payload.value| % 256] + payload.value)
  {
    VarintFits(MessageType(m));
  }

  /** Append a whole message; on failure only its type may have been appended. */
  method EncodeControlMessage(m: ControlMessage, buf: Buffer) returns (o: Outcome)
    modifies buf
    ensures if EncMessage(m).Ok? then o == Pass && buf.data == old(buf.data) + EncMessage(m).value
            else o == Fail(EncMessage(m).error) && buf.data == old(buf.data) + PutVarint(MessageType(m)).value
  {
    EncMessageIs(m);
    var typed := buf.WriteVarint(MessageType(m));
    assert typed == Pass;
    var payload := new Buffer();
    :- EncodePayload(payload, m);
    if |payload.data| > MAX_PAYLOAD {
      return Fail(MessageTooLong);
    }
    buf.WriteU16(|payload.data|);
    buf.WriteBytes(payload.data);
    return Pass;
  }
}
