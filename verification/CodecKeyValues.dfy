/** Delta-coded key-value pairs, and parameters sorted by key (`types.rs`, `params.rs`). */
module CodecKeyValues {
  import opened MoqTypes
  import opened CodecErrors
  import opened CodecChains

  const MAX_KV_VALUE_BYTES: nat := 65535

  type PairSize = n: nat | n >= 8 witness 8

  /** What a pair takes up in a vector: at least its 64-bit key, and otherwise the compiler's choice. */
  const PAIR_BYTES: PairSize

  /** A vector can hold, or set aside room for, this many pairs. */
  predicate VectorHolds(count: nat) { count * PAIR_BYTES <= MAX_LEN }

  // ---- Encoding ----

  function EncValue(kv: KeyValuePair): Result<Bytes> {
    match kv.value
    case Varint(n) => if kv.key % 2 != 0 then Err(KeyValueFormattingError) else PutVarint(n)
    case Blob(b) => if kv.key % 2 != 1 || |b| > MAX_KV_VALUE_BYTES then Err(KeyValueFormattingError) else PutPrefixed(b)
  }

  function EncPair(prev: nat, kv: KeyValuePair): Result<Bytes> {
    if kv.key < prev then Err(KeyValueFormattingError)
    else
      var delta :- PutVarint(kv.key - prev);
      var value :- EncValue(kv);
      Ok(delta + value)
  }

  // ---- Decoding ----

  function DecValue(key: nat, b: Bytes): (r: Result<(KvValue, Bytes)>)
    ensures r.Ok? ==> |r.value.1| < |b|
  {
    var (n, rest) :- GetVarint(b);
    if key % 2 == 0 then Ok((KvValue.Varint(n), rest))
    else if n > MAX_KV_VALUE_BYTES then Err(ProtocolViolation)
    else
      var (body, after) :- GetBytes(rest, n);
      Ok((Blob(body), after))
  }

  function DecPair(prev: nat, b: Bytes): (r: Result<(KeyValuePair, Bytes)>)
    ensures r.Ok? ==> |r.value.1| < |b|
  {
    var (delta, rest) :- GetVarint(b);
    if prev + delta > MAX_U64 then Err(ProtocolViolation)
    else
      var (value, after) :- DecValue(prev + delta, rest);
      Ok((KeyValuePair(prev + delta, value), after))
  }

  /** A pair after a pair with key prev; keys are 64-bit numbers. */
  function PairCodec(): Codec<nat, KeyValuePair> {
    Codec(EncPair, DecPair, (prev: nat, kv: KeyValuePair) => kv.key <= MAX_U64, (prev: nat, kv: KeyValuePair) => kv.key)
  }

  /** Pairs in the given order. */
  function EncPairs(ps: seq<KeyValuePair>): Result<Bytes> { EncChain(PairCodec(), 0, ps) }

  // ---- Round trips ----

  /** Keys are 64-bit numbers. */
  predicate KeysFit(ps: seq<KeyValuePair>) {
    forall i :: 0 <= i < |ps| ==> ps[i].key <= MAX_U64
  }

  lemma ValueBack(kv: KeyValuePair, rest: Bytes)
    requires EncValue(kv).Ok?
    ensures DecValue(kv.key, EncValue(kv).value + rest) == Ok((kv.value, rest))
  {
    match kv.value
    case Varint(n) => VarintBack(n, rest);
    case Blob(b) =>
      var len := PutVarint(|b|).value;
      assert len + b + rest == len + (b + rest);
      VarintBack(|b|, b + rest);
      BytesBack(b, rest);
  }

  lemma PairBytes(prev: nat, kv: KeyValuePair)
    requires EncPair(prev, kv).Ok?
    ensures kv.key >= prev && PutVarint(kv.key - prev).Ok? && EncValue(kv).Ok?
    ensures EncPair(prev, kv).value == PutVarint(kv.key - prev).value + EncValue(kv).value
  {
  }

  lemma PairRead(prev: nat, kv: KeyValuePair, b: Bytes, body: Bytes, rest: Bytes)
    requires prev <= kv.key && GetVarint(b) == Ok((kv.key - prev, body))
             && DecValue(kv.key, body) == Ok((kv.value, rest))
    ensures DecPair(prev, b) == if kv.key <= MAX_U64 then Ok((kv, rest)) else Err(ProtocolViolation)
  {
  }

  lemma PairBack(prev: nat, kv: KeyValuePair, rest: Bytes)
    requires EncPair(prev, kv).Ok?
    ensures DecPair(prev, EncPair(prev, kv).value + rest)
         == if kv.key <= MAX_U64 then Ok((kv, rest)) else Err(ProtocolViolation)
  {
    PairBytes(prev, kv);
    var delta, value := PutVarint(kv.key - prev).value, EncValue(kv).value;
    assert delta + value + rest == delta + (value + rest);
    VarintBack(kv.key - prev, value + rest);
    ValueBack(kv, rest);
    PairRead(prev, kv, delta + (value + rest), value + rest, rest);
  }

  // ---- What was read can be written, in no more bytes ----

  lemma PairShrinks(prev: nat, b: Bytes)
    requires DecPair(prev, b).Ok?
    ensures var (kv, rest) := DecPair(prev, b).value;
            && prev <= kv.key <= MAX_U64
            && EncPair(prev, kv).Ok? && |EncPair(prev, kv).value| + |rest| <= |b|
  {
    var (delta, rest) := GetVarint(b).value;
    VarintShrinks(b);
    VarintShrinks(rest);
  }

  lemma PairCodecSound()
    ensures Sound(PairCodec())
  {
    var c := PairCodec();
    forall prev, kv, rest | c.enc(prev, kv).Ok?
      ensures c.dec(prev, c.enc(prev, kv).value + rest)
              == if c.accepts(prev, kv) then Ok((kv, rest)) else Err(ProtocolViolation)
    {
      PairBack(prev, kv, rest);
    }
    forall prev, b | c.dec(prev, b).Ok?
      ensures Rewritable(c, prev, c.dec(prev, b).value.0, |b| - |c.dec(prev, b).value.1|)
    {
      PairShrinks(prev, b);
    }
  }

  lemma {:induction false} AcceptedPairs(prev: nat, ps: seq<KeyValuePair>)
    ensures Accepted(PairCodec(), prev, ps) <==> KeysFit(ps)
    decreases |ps|
  {
    if ps != [] {
      AcceptedPairs(ps[0].key, ps[1..]);
      assert ps == [ps[0]] + ps[1..];
    }
  }

  /** Pairs can be written only in the order of their keys. */
  lemma {:induction false} WrittenAscend(prev: nat, ps: seq<KeyValuePair>)
    requires EncChain(PairCodec(), prev, ps).Ok?
    ensures Ascending(prev, ps)
    decreases |ps|
  {
    if ps != [] { WrittenAscend(ps[0].key, ps[1..]); }
  }

  // ---- Sorting by key ----

  /** No key is below the one before it, and none below prev. */
  predicate Ascending(prev: nat, ps: seq<KeyValuePair>)
    decreases |ps|
  {
    ps == [] || (prev <= ps[0].key && Ascending(ps[0].key, ps[1..]))
  }

  /** Insert before the first pair with a larger or equal key. */
  function Insert(kv: KeyValuePair, ps: seq<KeyValuePair>): seq<KeyValuePair> {
    if ps == [] || kv.key <= ps[0].key then [kv] + ps else [ps[0]] + Insert(kv, ps[1..])
  }

  /** `sort_by_key`: stable. */
  function Sorted(ps: seq<KeyValuePair>): seq<KeyValuePair> {
    if ps == [] then [] else Insert(ps[0], Sorted(ps[1..]))
  }

  /** The pairs with a given key, in order. */
  function WithKey(ps: seq<KeyValuePair>, key: nat): seq<KeyValuePair> {
    if ps == [] then [] else (if ps[0].key == key then [ps[0]] else []) + WithKey(ps[1..], key)
  }

  lemma {:induction false} InsertAscending(low: nat, kv: KeyValuePair, ps: seq<KeyValuePair>)
    requires Ascending(low, ps) && low <= kv.key
    ensures Ascending(low, Insert(kv, ps))
    decreases |ps|
  {
    var r := Insert(kv, ps);
    if ps == [] || kv.key <= ps[0].key {
      assert r[1..] == ps;
    } else {
      InsertAscending(ps[0].key, kv, ps[1..]);
      assert r[1..] == Insert(kv, ps[1..]);
    }
  }

  lemma {:induction false} InsertWithKey(kv: KeyValuePair, ps: seq<KeyValuePair>, low: nat, key: nat)
    requires Ascending(low, ps)
    ensures WithKey(Insert(kv, ps), key) == (if kv.key == key then [kv] else []) + WithKey(ps, key)
    decreases |ps|
  {
    var r := Insert(kv, ps);
    if ps == [] || kv.key <= ps[0].key {
      assert r[1..] == ps;
    } else {
      assert r[1..] == Insert(kv, ps[1..]);
      InsertWithKey(kv, ps[1..], ps[0].key, key);
      if kv.key == key {
        assert ps[0].key != key;
      }
    }
  }

  /** Sorting orders the keys, keeps the pairs of each key in their order, and so keeps every pair. */
  lemma {:induction false} SortedIsStableSort(ps: seq<KeyValuePair>, key: nat)
    ensures Ascending(0, Sorted(ps)) && WithKey(Sorted(ps), key) == WithKey(ps, key)
  {
    if ps != [] {
      SortedIsStableSort(ps[1..], key);
      InsertAscending(0, ps[0], Sorted(ps[1..]));
      InsertWithKey(ps[0], Sorted(ps[1..]), 0, key);
    }
  }

  lemma {:induction false} InsertCounts(kv: KeyValuePair, ps: seq<KeyValuePair>)
    ensures multiset(Insert(kv, ps)) == multiset{kv} + multiset(ps) && |Insert(kv, ps)| == |ps| + 1
  {
    if ps == [] || kv.key <= ps[0].key {
    } else {
      InsertCounts(kv, ps[1..]);
      assert ps == [ps[0]] + ps[1..];
    }
  }

  lemma {:induction false} SortedCounts(ps: seq<KeyValuePair>)
    ensures multiset(Sorted(ps)) == multiset(ps) && |Sorted(ps)| == |ps|
  {
    if ps != [] {
      SortedCounts(ps[1..]);
      InsertCounts(ps[0], Sorted(ps[1..]));
      assert ps == [ps[0]] + ps[1..];
    }
  }

  lemma {:induction false} SortedOfAscending(low: nat, ps: seq<KeyValuePair>)
    requires Ascending(low, ps)
    ensures Sorted(ps) == ps
    decreases |ps|
  {
    if ps != [] {
      SortedOfAscending(ps[0].key, ps[1..]);
    }
  }

  ghost predicate SamePerKey(a: seq<KeyValuePair>, b: seq<KeyValuePair>) {
    forall key: nat :: WithKey(a, key) == WithKey(b, key)
  }

  /** Ascending lists are determined by their pairs per key. */
  lemma {:induction false} AscendingUnique(low: nat, a: seq<KeyValuePair>, b: seq<KeyValuePair>)
    requires Ascending(low, a) && Ascending(low, b)
    requires SamePerKey(a, b)
    ensures a == b
    decreases |a|
  {
    assert b != [] ==> WithKey(a, b[0].key) == WithKey(b, b[0].key);
    assert a != [] ==> WithKey(a, a[0].key) == WithKey(b, a[0].key);
    if a != [] && b != [] {
      AscendingFirst(a, b);
      AscendingFirst(b, a);
      assert WithKey(a, a[0].key)[0] == WithKey(b, a[0].key)[0];
      forall key: nat ensures WithKey(a[1..], key) == WithKey(b[1..], key) {
        assert WithKey(a, key) == WithKey(b, key);
        assert (if a[0].key == key then WithKey(a, key)[1..] else WithKey(a, key)) == WithKey(a[1..], key);
        assert (if b[0].key == key then WithKey(b, key)[1..] else WithKey(b, key)) == WithKey(b[1..], key);
      }
      AscendingUnique(a[0].key, a[1..], b[1..]);
    }
  }

  lemma {:induction false} NoSmallKeys(low: nat, ps: seq<KeyValuePair>, key: nat)
    requires Ascending(low, ps) && key < low
    ensures WithKey(ps, key) == []
    decreases |ps|
  {
    if ps != [] { NoSmallKeys(ps[0].key, ps[1..], key); }
  }

  lemma AscendingFirst(a: seq<KeyValuePair>, b: seq<KeyValuePair>)
    requires a != [] && b != [] && Ascending(a[0].key, a) && Ascending(b[0].key, b)
    requires SamePerKey(a, b)
    ensures b[0].key <= a[0].key
  {
    assert WithKey(a, a[0].key) == WithKey(b, a[0].key);
    if a[0].key < b[0].key {
      NoSmallKeys(b[0].key, b, a[0].key);
    }
  }

  lemma SortedPerKey(a: seq<KeyValuePair>, b: seq<KeyValuePair>)
    ensures SamePerKey(Sorted(a), Sorted(b)) <==> SamePerKey(a, b)
  {
    forall key: nat ensures WithKey(Sorted(a), key) == WithKey(a, key) && WithKey(Sorted(b), key) == WithKey(b, key) {
      SortedIsStableSort(a, key);
      SortedIsStableSort(b, key);
    }
  }

  /** The source's equality of parameters: same pairs per key, in the same order. */
  lemma EqualIffSamePerKey(a: seq<KeyValuePair>, b: seq<KeyValuePair>)
    ensures Sorted(a) == Sorted(b) <==> SamePerKey(a, b)
  {
    SortedPerKey(a, b);
    SortedIsStableSort(a, 0);
    SortedIsStableSort(b, 0);
    if SamePerKey(a, b) {
      AscendingUnique(0, Sorted(a), Sorted(b));
    }
  }

  // ---- Parameters ----

  function EncParameters(ps: Parameters): Result<Bytes> {
    var count :- PutVarint(|Sorted(ps)|);
    var pairs :- EncPairs(Sorted(ps));
    Ok(count + pairs)
  }

  /** Room for all pairs is set aside before the first is read. */
  function DecCounted(count: nat, b: Bytes): Result<(seq<KeyValuePair>, Bytes)> {
    if VectorHolds(count) then DecChain(PairCodec(), 0, count, b) else Err(Fault)
  }

  function DecParameters(b: Bytes): Result<(Parameters, Bytes)> {
    var (count, rest) :- GetVarint(b);
    DecCounted(count, rest)
  }

  function DecExtensions(b: Bytes): Result<Extensions> {
    PairCodecSound();
    DecRemaining(PairCodec(), 0, b)
  }

  lemma {:induction false} KeysFitSorted(ps: Parameters)
    ensures KeysFit(Sorted(ps)) <==> KeysFit(ps)
  {
    SortedCounts(ps);
    if KeysFit(ps) {
      forall i | 0 <= i < |Sorted(ps)| ensures Sorted(ps)[i].key <= MAX_U64 {
        assert Sorted(ps)[i] in multiset(ps);
      }
    } else {
      var i :| 0 <= i < |ps| && ps[i].key > MAX_U64;
      assert ps[i] in multiset(Sorted(ps));
    }
  }

  /** Pairs that were written come back, if a vector can hold them and their keys are 64-bit numbers. */
  lemma CountedBack(ps: seq<KeyValuePair>, rest: Bytes)
    requires EncPairs(ps).Ok?
    ensures DecCounted(|ps|, EncPairs(ps).value + rest)
         == if !VectorHolds(|ps|) then Err(Fault) else if KeysFit(ps) then Ok((ps, rest)) else Err(ProtocolViolation)
  {
    PairCodecSound();
    ChainBack(PairCodec(), 0, ps, rest);
    AcceptedPairs(0, ps);
  }

  /** The count is read, and decides with what follows it. */
  lemma CountRead(count: nat, body: Bytes)
    requires PutVarint(count).Ok?
    ensures DecParameters(PutVarint(count).value + body) == DecCounted(count, body)
  {
    VarintBack(count, body);
  }

  lemma SortedBack(ps: Parameters, rest: Bytes)
    requires EncPairs(Sorted(ps)).Ok?
    ensures DecCounted(|Sorted(ps)|, EncPairs(Sorted(ps)).value + rest)
         == if !VectorHolds(|ps|) then Err(Fault)
            else if KeysFit(ps) then Ok((Sorted(ps), rest)) else Err(ProtocolViolation)
  {
    CountedBack(Sorted(ps), rest);
    KeysFitSorted(ps);
    SortedCounts(ps);
  }

  lemma EncParametersIs(ps: Parameters, rest: Bytes)
    requires EncParameters(ps).Ok?
    ensures PutVarint(|Sorted(ps)|).Ok? && EncPairs(Sorted(ps)).Ok?
    ensures EncParameters(ps).value + rest
         == PutVarint(|Sorted(ps)|).value + (EncPairs(Sorted(ps)).value + rest)
  {
    var count, pairs := PutVarint(|Sorted(ps)|).value, EncPairs(Sorted(ps)).value;
    assert count + pairs + rest == count + (pairs + rest);
  }

  /** Parameters come back sorted by key. */
  lemma ParametersBack(ps: Parameters, rest: Bytes)
    requires EncParameters(ps).Ok?
    ensures DecParameters(EncParameters(ps).value + rest)
         == if !VectorHolds(|ps|) then Err(Fault)
            else if KeysFit(ps) then Ok((Sorted(ps), rest)) else Err(ProtocolViolation)
  {
    EncParametersIs(ps, rest);
    CountRead(|Sorted(ps)|, EncPairs(Sorted(ps)).value + rest);
    SortedBack(ps, rest);
  }

  lemma ParametersShrink(b: Bytes)
    requires DecParameters(b).Ok?
    ensures var (ps, rest) := DecParameters(b).value;
            && KeysFit(ps) && VectorHolds(|ps|) && Sorted(ps) == ps
            && EncParameters(ps).Ok? && |EncParameters(ps).value| + |rest| <= |b|
  {
    var (count, rest) := GetVarint(b).value;
    VarintShrinks(b);
    PairCodecSound();
    ChainShrinks(PairCodec(), 0, count, rest);
    var ps := DecParameters(b).value.0;
    WrittenAscend(0, ps);
    SortedOfAscending(0, ps);
    AcceptedPairs(0, ps);
  }

  lemma ExtensionsBack(exts: Extensions)
    requires EncPairs(exts).Ok? && KeysFit(exts)
    ensures DecExtensions(EncPairs(exts).value) == Ok(exts)
  {
    PairCodecSound();
    AcceptedPairs(0, exts);
    RemainingBack(PairCodec(), 0, exts);
  }

  lemma ExtensionsShrink(b: Bytes)
    requires DecExtensions(b).Ok?
    ensures var exts := DecExtensions(b).value; KeysFit(exts) && EncPairs(exts).Ok? && |EncPairs(exts).value| <= |b|
  {
    PairCodecSound();
    RemainingShrinks(PairCodec(), 0, b);
    AcceptedPairs(0, DecExtensions(b).value);
  }
}
