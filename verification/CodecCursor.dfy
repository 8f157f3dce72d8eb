/** The codec as the source runs it: a cursor that moves over the bytes, a buffer that grows. */
module CodecCursor {
  import opened MoqTypes
  import opened Varint
  import opened Utf8
  import opened CodecErrors
  import opened CodecChains
  import opened CodecKeyValues
  import opened CodecNames
  import opened CodecFields
  import opened CodecMessages
  import opened CodecFraming

  // ---- Reading ----

  /** The reader returned what the specification reads, and stopped where it does. */
  ghost predicate Reads<T>(r: Result<T>, spec: Result<(T, Bytes)>, rest: Bytes) {
    if spec.Ok? then r == Ok(spec.value.0) && rest == spec.value.1 else r == Err(spec.error)
  }

  class Cursor {
    const buf: Bytes
    var pos: nat

    ghost predicate Valid()
      reads this
    {
      pos <= |buf|
    }

    ghost function Rest(): Bytes
      reads this
      requires Valid()
    {
      buf[pos..]
    }

    constructor (buf: Bytes)
      ensures Valid() && this.buf == buf && pos == 0
    {
      this.buf := buf;
      pos := 0;
    }

    function Remaining(): nat
      reads this
      requires Valid()
      ensures Remaining() == |Rest()|
    {
      |buf| - pos
    }

    method ReadU8() returns (r: Result<Byte>)
      requires Valid()
      modifies this`pos
      ensures Valid() && Reads(r, GetByte(old(Rest())), Rest())
    {
      if |buf| - pos < 1 {
        return Err(BufferTooShort);
      }
      pos := pos + 1;
      return Ok(buf[pos - 1]);
    }

    method ReadU16() returns (r: Result<nat>)
      requires Valid()
      modifies this`pos
      ensures Valid() && Reads(r, GetU16(old(Rest())), Rest())
    {
      if |buf| - pos < 2 {
        return Err(BufferTooShort);
      }
      var hi: nat, lo: nat := buf[pos], buf[pos + 1];
      pos := pos + 2;
      return Ok(256 * hi + lo);
    }

    method ReadVarint() returns (r: Result<nat>)
      requires Valid()
      modifies this`pos
      ensures Valid() && Reads(r, GetVarint(old(Rest())), Rest())
    {
      var d := DecodeVarint(buf[pos..]);
      if d.None? {
        return Err(BufferTooShort);
      }
      VarintMinimal(buf[pos..]);
      pos := pos + d.value.1;
      return Ok(d.value.0);
    }

    method ReadBytes(len: nat) returns (r: Result<Bytes>)
      requires Valid()
      modifies this`pos
      ensures Valid() && Reads(r, GetBytes(old(Rest()), len), Rest())
    {
      if |buf| - pos < len {
        return Err(BufferTooShort);
      }
      var slice := buf[pos..pos + len];
      assert slice == buf[pos..][..len] && buf[pos + len..] == buf[pos..][len..];
      pos := pos + len;
      return Ok(slice);
    }

    method ReadPrefixedBytes() returns (r: Result<Bytes>)
      requires Valid()
      modifies this`pos
      ensures Valid() && Reads(r, GetPrefixed(old(Rest())), Rest())
    {
      var len :- ReadVarint();
      r := ReadBytes(len);
    }

    /** A cursor over the next len bytes, which this cursor skips. */
    method Split(len: nat) returns (r: Result<Cursor>)
      requires Valid()
      modifies this`pos
      ensures Valid()
      ensures match GetBytes(old(Rest()), len)
              case Err(e) => r == Err(e) && pos == old(pos)
              case Ok((body, rest)) =>
                r.Ok? && fresh(r.value) && r.value.Valid() && r.value.Rest() == body && Rest() == rest
    {
      if |buf| - pos < len {
        return Err(BufferTooShort);
      }
      var sub := new Cursor(buf[pos..pos + len]);
      pos := pos + len;
      return Ok(sub);
    }
  }

  // ---- Reading loops: the items so far, and what is left to do ----

  ghost function ChainFrom<S(!new), T(!new)>(c: Codec<S, T>, s: S, count: nat, b: Bytes,
                                             done: seq<T>): Result<(seq<T>, Bytes)>
    decreases count
  {
    if count == 0 then Ok((done, b))
    else
      var (x, rest) :- c.dec(s, b);
      ChainFrom(c, c.next(s, x), count - 1, rest, done + [x])
  }

  ghost function RemainingFrom<S(!new), T(!new)>(c: Codec<S, T>, s: S, b: Bytes, done: seq<T>): Result<seq<T>>
    requires Consumes(c)
    decreases |b|
  {
    if b == [] then Ok(done)
    else
      var (x, rest) :- c.dec(s, b);
      RemainingFrom(c, c.next(s, x), rest, done + [x])
  }

  lemma {:induction false} ChainFromMeans<S(!new), T(!new)>(c: Codec<S, T>, s: S, count: nat, b: Bytes, done: seq<T>)
    ensures var r := DecChain(c, s, count, b);
            ChainFrom(c, s, count, b, done) == (if r.Err? then r else Ok((done + r.value.0, r.value.1)))
    decreases count
  {
    assert done + [] == done;
    if count != 0 && c.dec(s, b).Ok? {
      var (x, rest) := c.dec(s, b).value;
      ChainFromMeans(c, c.next(s, x), count - 1, rest, done + [x]);
      var more := DecChain(c, c.next(s, x), count - 1, rest);
      if more.Ok? { assert done + ([x] + more.value.0) == done + [x] + more.value.0; }
    }
  }

  lemma {:induction false} RemainingFromMeans<S(!new), T(!new)>(c: Codec<S, T>, s: S, b: Bytes, done: seq<T>)
    requires Consumes(c)
    ensures var r := DecRemaining(c, s, b);
            RemainingFrom(c, s, b, done) == (if r.Err? then r else Ok(done + r.value))
    decreases |b|
  {
    assert done + [] == done;
    if b != [] && c.dec(s, b).Ok? {
      var (x, rest) := c.dec(s, b).value;
      RemainingFromMeans(c, c.next(s, x), rest, done + [x]);
      var more := DecRemaining(c, c.next(s, x), rest);
      if more.Ok? { assert done + ([x] + more.value) == done + [x] + more.value; }
    }
  }

  lemma ChainStart<S(!new), T(!new)>(c: Codec<S, T>, s: S, count: nat, b: Bytes)
    ensures ChainFrom(c, s, count, b, []) == DecChain(c, s, count, b)
  {
    ChainFromMeans(c, s, count, b, []);
    var r := DecChain(c, s, count, b);
    if r.Ok? { assert [] + r.value.0 == r.value.0; }
  }

  lemma RemainingStart<S(!new), T(!new)>(c: Codec<S, T>, s: S, b: Bytes)
    requires Consumes(c)
    ensures RemainingFrom(c, s, b, []) == DecRemaining(c, s, b)
  {
    RemainingFromMeans(c, s, b, []);
    var r := DecRemaining(c, s, b);
    if r.Ok? { assert [] + r.value == r.value; }
  }

  /** The codec reads fields of a namespace. */
  ghost predicate ReadsParts(codec: Codec<nat, Bytes>) {
    && (forall total: nat, b: Bytes {:trigger DecPart(total, b)} :: codec.dec(total, b) == DecPart(total, b))
    && (forall total: nat, part: Bytes :: codec.next(total, part) == total + |part|)
  }

  /** The codec reads key-value pairs. */
  ghost predicate ReadsPairs(codec: Codec<nat, KeyValuePair>) {
    && (forall prev: nat, b: Bytes {:trigger DecPair(prev, b)} :: codec.dec(prev, b) == DecPair(prev, b))
    && (forall prev: nat, kv :: codec.next(prev, kv) == kv.key)
  }

  lemma CodecsRead()
    ensures ReadsParts(PartCodec()) && ReadsPairs(PairCodec())
  {
  }

  // ---- Namespaces and reason phrases ----

  /** One field of a namespace, after totalBytes of fields. */
  method DecodePart(c: Cursor, totalBytes: nat) returns (r: Result<Bytes>)
    requires c.Valid()
    modifies c`pos
    ensures c.Valid() && Reads(r, DecPart(totalBytes, old(c.Rest())), c.Rest())
  {
    var field :- c.ReadPrefixedBytes();
    if field == [] {
      return Err(ProtocolViolation);
    }
    if totalBytes + |field| > MAX_FULL_TRACK_NAME_BYTES {
      return Err(ProtocolViolation);
    }
    return Ok(field);
  }

  /** One round of the loop: the fields and the bytes so far, one field more. */
  method DecodeNextPart(c: Cursor, totalBytes: nat, fields: seq<Bytes>, ghost codec: Codec<nat, Bytes>,
                        ghost count: nat)
    returns (r: Result<(nat, seq<Bytes>)>)
    requires c.Valid() && count > 0 && ReadsParts(codec)
    modifies c`pos
    ensures c.Valid()
    ensures ChainFrom(codec, totalBytes, count, old(c.Rest()), fields)
         == if r.Err? then Err(r.error) else ChainFrom(codec, r.value.0, count - 1, c.Rest(), r.value.1)
  {
    assert codec.dec(totalBytes, c.Rest()) == DecPart(totalBytes, c.Rest());
    var field :- DecodePart(c, totalBytes);
    return Ok((totalBytes + |field|, fields + [field]));
  }

  method DecodePartsLoop(c: Cursor, count: nat, ghost codec: Codec<nat, Bytes>) returns (r: Result<seq<Bytes>>)
    requires c.Valid() && ReadsParts(codec)
    modifies c`pos
    ensures c.Valid() && Reads(r, ChainFrom(codec, 0, count, old(c.Rest()), []), c.Rest())
  {
    var fields: seq<Bytes> := [];
    var totalBytes: nat := 0;
    ghost var spec := ChainFrom(codec, 0, count, c.Rest(), []);
    for i := 0 to count
      invariant c.Valid() && spec == ChainFrom(codec, totalBytes, count - i, c.Rest(), fields)
    {
      var next :- DecodeNextPart(c, totalBytes, fields, codec, count - i);
      totalBytes, fields := next.0, next.1;
    }
    return Ok(fields);
  }

  method DecodeParts(c: Cursor, count: nat) returns (r: Result<seq<Bytes>>)
    requires c.Valid()
    modifies c`pos
    ensures c.Valid() && Reads(r, DecChain(PartCodec(), 0, count, old(c.Rest())), c.Rest())
  {
    CodecsRead();
    ChainStart(PartCodec(), 0, count, c.Rest());
    r := DecodePartsLoop(c, count, PartCodec());
  }

  method DecodeNamespace(c: Cursor, least: nat) returns (r: Result<Namespace>)
    requires c.Valid()
    modifies c`pos
    ensures c.Valid() && Reads(r, DecNamespace(least, old(c.Rest())), c.Rest())
  {
    var count :- c.ReadVarint();
    if count < least || count > MAX_TRACK_NAMESPACE_FIELDS {
      return Err(ProtocolViolation);
    }
    r := DecodeParts(c, count);
  }

  method DecodeBounded(c: Cursor, limit: nat) returns (r: Result<Bytes>)
    requires c.Valid()
    modifies c`pos
    ensures c.Valid() && Reads(r, GetBounded(limit, old(c.Rest())), c.Rest())
  {
    var len :- c.ReadVarint();
    if len > limit {
      return Err(ProtocolViolation);
    }
    r := c.ReadBytes(len);
  }

  method DecodeReason(c: Cursor) returns (r: Result<Bytes>)
    requires c.Valid()
    modifies c`pos
    ensures c.Valid() && Reads(r, DecReason(old(c.Rest())), c.Rest())
  {
    var text :- DecodeBounded(c, MAX_REASON_PHRASE_BYTES);
    if !ValidUtf8(text) {
      return Err(ProtocolViolation);
    }
    return Ok(text);
  }

  // ---- Key-value pairs ----

  /** One pair after a pair with key prev. */
  method DecodePair(c: Cursor, prev: nat) returns (r: Result<KeyValuePair>)
    requires c.Valid()
    modifies c`pos
    ensures c.Valid() && Reads(r, DecPair(prev, old(c.Rest())), c.Rest())
  {
    var delta :- c.ReadVarint();
    if prev + delta > MAX_U64 {
      return Err(ProtocolViolation);
    }
    var n :- c.ReadVarint();
    if (prev + delta) % 2 == 0 {
      return Ok(KeyValuePair(prev + delta, KvValue.Varint(n)));
    }
    if n > MAX_KV_VALUE_BYTES {
      return Err(ProtocolViolation);
    }
    var body :- c.ReadBytes(n);
    return Ok(KeyValuePair(prev + delta, Blob(body)));
  }

  method DecodeKeyValuePairs(c: Cursor, count: nat) returns (r: Result<seq<KeyValuePair>>)
    requires c.Valid()
    modifies c`pos
    ensures c.Valid() && Reads(r, DecCounted(count, old(c.Rest())), c.Rest())
  {
    if !VectorHolds(count) {
      return Err(Fault);
    }
    CodecsRead();
    ChainStart(PairCodec(), 0, count, c.Rest());
    r := DecodePairsLoop(c, count, PairCodec());
  }

  /** One round of the loop: the key and the pairs so far, one pair more. */
  method DecodeNextPair(c: Cursor, prevType: nat, pairs: seq<KeyValuePair>, ghost codec: Codec<nat, KeyValuePair>,
                        ghost count: nat)
    returns (r: Result<(nat, seq<KeyValuePair>)>)
    requires c.Valid() && count > 0 && ReadsPairs(codec)
    modifies c`pos
    ensures c.Valid()
    ensures ChainFrom(codec, prevType, count, old(c.Rest()), pairs)
         == if r.Err? then Err(r.error) else ChainFrom(codec, r.value.0, count - 1, c.Rest(), r.value.1)
  {
    assert codec.dec(prevType, c.Rest()) == DecPair(prevType, c.Rest());
    var kv :- DecodePair(c, prevType);
    return Ok((kv.key, pairs + [kv]));
  }

  method DecodePairsLoop(c: Cursor, count: nat, ghost codec: Codec<nat, KeyValuePair>)
      returns (r: Result<seq<KeyValuePair>>)
    requires c.Valid() && ReadsPairs(codec)
    modifies c`pos
    ensures c.Valid() && Reads(r, ChainFrom(codec, 0, count, old(c.Rest()), []), c.Rest())
  {
    var pairs: seq<KeyValuePair> := [];
    var prevType: nat := 0;
    ghost var spec := ChainFrom(codec, 0, count, c.Rest(), []);
    for i := 0 to count
      invariant c.Valid() && spec == ChainFrom(codec, prevType, count - i, c.Rest(), pairs)
    {
      var next :- DecodeNextPair(c, prevType, pairs, codec, count - i);
      prevType, pairs := next.0, next.1;
    }
    return Ok(pairs);
  }

  method DecodeExtensions(c: Cursor) returns (r: Result<Extensions>)
    requires c.Valid()
    modifies c`pos
    ensures c.Valid() && r == DecExtensions(old(c.Rest())) && (r.Ok? ==> c.Rest() == [])
  {
    CodecsRead();
    PairCodecSound();
    RemainingStart(PairCodec(), 0, c.Rest());
    r := DecodeExtensionsLoop(c, PairCodec());
  }

  /** One round of the loop: the key and the pairs so far, one pair more. */
  method DecodeNextExtension(c: Cursor, prevType: nat, pairs: seq<KeyValuePair>, ghost codec: Codec<nat, KeyValuePair>)
    returns (r: Result<(nat, seq<KeyValuePair>)>)
    requires c.Valid() && c.Remaining() > 0 && Consumes(codec) && ReadsPairs(codec)
    modifies c`pos
    ensures c.Valid() && (r.Ok? ==> c.Remaining() < old(c.Remaining()))
    ensures RemainingFrom(codec, prevType, old(c.Rest()), pairs)
         == if r.Err? then Err(r.error) else RemainingFrom(codec, r.value.0, c.Rest(), r.value.1)
  {
    assert codec.dec(prevType, c.Rest()) == DecPair(prevType, c.Rest());
    var kv :- DecodePair(c, prevType);
    return Ok((kv.key, pairs + [kv]));
  }

  method DecodeExtensionsLoop(c: Cursor, ghost codec: Codec<nat, KeyValuePair>) returns (r: Result<Extensions>)
    requires c.Valid() && Consumes(codec) && ReadsPairs(codec)
    modifies c`pos
    ensures c.Valid() && r == RemainingFrom(codec, 0, old(c.Rest()), []) && (r.Ok? ==> c.Rest() == [])
  {
    var pairs: seq<KeyValuePair> := [];
    var prevType: nat := 0;
    ghost var spec := RemainingFrom(codec, 0, c.Rest(), []);
    while c.Remaining() > 0
      invariant c.Valid() && spec == RemainingFrom(codec, prevType, c.Rest(), pairs)
      decreases c.Remaining()
    {
      var next :- DecodeNextExtension(c, prevType, pairs, codec);
      prevType, pairs := next.0, next.1;
    }
    return Ok(pairs);
  }

  method DecodeParameters(c: Cursor) returns (r: Result<Parameters>)
    requires c.Valid()
    modifies c`pos
    ensures c.Valid() && Reads(r, DecParameters(old(c.Rest())), c.Rest())
  {
    var count :- c.ReadVarint();
    r := DecodeKeyValuePairs(c, count);
  }

  // ---- Messages ----

  method DecodeFlag(c: Cursor) returns (r: Result<Field>)
    requires c.Valid()
    modifies c`pos
    ensures c.Valid() && Reads(r, DecFlag(old(c.Rest())), c.Rest())
  {
    var x :- c.ReadU8();
    match x {
      case 0 => return Ok(Flag(false));
      case 1 => return Ok(Flag(true));
      case _ => return Err(ProtocolViolation);
    }
  }

  method DecodeOptions(c: Cursor) returns (r: Result<Field>)
    requires c.Valid()
    modifies c`pos
    ensures c.Valid() && Reads(r, DecOptions(old(c.Rest())), c.Rest())
  {
    var x :- c.ReadVarint();
    match x {
      case 0 => return Ok(Options(PublishOnly));
      case 1 => return Ok(Options(NamespaceOnly));
      case 2 => return Ok(Options(Both));
      case _ => return Err(InvalidValue);
    }
  }

  method DecodeField(c: Cursor, k: Kind) returns (r: Result<Field>)
    requires c.Valid()
    modifies c`pos
    ensures c.Valid() && Reads(r, DecField(k, old(c.Rest())), c.Rest())
  {
    match k
    case KNumber => var n :- c.ReadVarint(); return Ok(Number(n));
    case KName => var x :- c.ReadPrefixedBytes(); return Ok(Name(x));
    case KUri => var x :- DecodeBounded(c, MAX_GOAWAY_URI_BYTES); return Ok(Uri(x));
    case KReason => var x :- DecodeReason(c); return Ok(Reason(x));
    case KSpace => var ns :- DecodeNamespace(c, 1); return Ok(Space(ns));
    case KPrefix => var ns :- DecodeNamespace(c, 0); return Ok(Prefix(ns));
    case KFlag => r := DecodeFlag(c);
    case KOptions => r := DecodeOptions(c);
    case KParams => var ps :- DecodeParameters(c); return Ok(Params(ps));
    case KExts => var exts :- DecodeExtensions(c); return Ok(Exts(exts));
  }

  ghost function FieldsFrom(kinds: seq<Kind>, b: Bytes, done: seq<Field>): Result<(seq<Field>, Bytes)>
    decreases |kinds|
  {
    if kinds == [] then Ok((done, b))
    else
      var (f, rest) :- DecField(kinds[0], b);
      FieldsFrom(kinds[1..], rest, done + [f])
  }

  lemma {:induction false} FieldsFromMeans(kinds: seq<Kind>, b: Bytes, done: seq<Field>)
    ensures FieldsFrom(kinds, b, done) == After(done, DecFields(kinds, b))
    decreases |kinds|
  {
    assert done + [] == done;
    if kinds != [] && DecField(kinds[0], b).Ok? {
      var (f, rest) := DecField(kinds[0], b).value;
      FieldsFromMeans(kinds[1..], rest, done + [f]);
      var more := DecFields(kinds[1..], rest);
      if more.Ok? { assert done + ([f] + more.value.0) == done + [f] + more.value.0; }
    }
  }

  /** Fields of the given kinds, after those already read. */
  method DecodeFields(c: Cursor, kinds: seq<Kind>, before: seq<Field>) returns (r: Result<seq<Field>>)
    requires c.Valid()
    modifies c`pos
    ensures c.Valid() && Reads(r, After(before, DecFields(kinds, old(c.Rest()))), c.Rest())
  {
    var fs := before;
    FieldsFromMeans(kinds, c.Rest(), before);
    ghost var spec := FieldsFrom(kinds, c.Rest(), before);
    assert kinds[0..] == kinds;
    for i := 0 to |kinds|
      invariant c.Valid() && spec == FieldsFrom(kinds[i..], c.Rest(), fs)
    {
      assert kinds[i..][1..] == kinds[i + 1..];
      var f :- DecodeField(c, kinds[i]);
      fs := fs + [f];
    }
    return Ok(fs);
  }

  method DecodePayload(c: Cursor, code: nat) returns (r: Result<seq<Field>>)
    requires c.Valid()
    modifies c`pos
    ensures c.Valid() && Reads(r, DecPayload(code, old(c.Rest())), c.Rest())
  {
    if code == MSG_FETCH {
      r := DecodeFetch(c);
      return;
    }
    var kinds := Layout(code);
    if kinds.None? {
      return Err(UnknownMessageType(code));
    }
    AfterNothing(DecFields(kinds.value, c.Rest()));
    r := DecodeFields(c, kinds.value, []);
  }

  method DecodeFetch(c: Cursor) returns (r: Result<seq<Field>>)
    requires c.Valid()
    modifies c`pos
    ensures c.Valid() && Reads(r, DecFetch(old(c.Rest())), c.Rest())
  {
    AfterNothing(DecFields([KNumber, KNumber], c.Rest()));
    var head :- DecodeFields(c, [KNumber, KNumber], []);
    var form := FormOf(head);
    if form.None? {
      return Err(ProtocolViolation);
    }
    r := DecodeFields(c, form.value, head);
  }

  lemma AfterNothing(r: Result<(seq<Field>, Bytes)>)
    ensures After([], r) == r
  {
    if r.Ok? { assert [] + r.value.0 == r.value.0; }
  }

  /** The message at the start of the buffer and the number of bytes it takes. */
  method DecodeControlMessage(buf: Bytes) returns (r: Result<(ControlMessage, nat)>)
    ensures r == DecMessage(buf)
  {
    var outer := new Cursor(buf);
    assert outer.Rest() == buf;
    var opened_ :- OpenFrame(outer);
    var (code, payload) := opened_;
    var totalConsumed := outer.pos;
    var m :- DecodeBody(payload, code);
    return Ok((m, totalConsumed));
  }

  /** Type and payload of the message the cursor stands at; the cursor moves behind it. */
  method OpenFrame(c: Cursor) returns (r: Result<(nat, Cursor)>)
    requires c.Valid()
    modifies c`pos
    ensures c.Valid()
    ensures r.Err? ==> r == Err(BufferTooShort) && Frame(old(c.Rest())) == Err(BufferTooShort)
    ensures r.Ok? ==> fresh(r.value.1) && r.value.1.Valid()
    ensures r.Ok? ==> Frame(old(c.Rest())) == Ok((r.value.0, r.value.1.Rest(), c.Rest()))
  {
    var header :- ReadHeader(c);
    var (code, len) := header;
    var payload :- c.Split(len);
    return Ok((code, payload));
  }

  /** Type and payload length. */
  method ReadHeader(c: Cursor) returns (r: Result<(nat, nat)>)
    requires c.Valid()
    modifies c`pos
    ensures c.Valid()
    ensures r.Err? ==> r == Err(BufferTooShort) && Frame(old(c.Rest())) == Err(BufferTooShort)
    ensures r.Ok? ==>
              var body := GetBytes(c.Rest(), r.value.1);
              Frame(old(c.Rest())) == if body.Err? then Err(BufferTooShort)
              else Ok((r.value.0, body.value.0, body.value.1))
  {
    var code :- c.ReadVarint();
    var len :- c.ReadU16();
    return Ok((code, len));
  }

  method DecodeBody(payload: Cursor, code: nat) returns (r: Result<ControlMessage>)
    requires payload.Valid()
    modifies payload`pos
    ensures r == DecBody(code, old(payload.Rest()))
  {
    ghost var b := payload.Rest();
    var fs :- DecodePayload(payload, code);
    PayloadShaped(code, b);
    if payload.Remaining() > 0 {
      return Err(ProtocolViolation);
    }
    return Ok(Build(code, fs));
  }

  lemma PayloadShaped(code: nat, b: Bytes)
    requires DecPayload(code, b).Ok?
    ensures Shaped(code, DecPayload(code, b).value.0)
  {
    PayloadShrinks(code, b);
  }
}
