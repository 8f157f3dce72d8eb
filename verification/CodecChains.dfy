/** Lists of items on the wire, each item read in the light of those before it: the fields of a
    namespace under a byte budget, key-value pairs coded as key distances. */
module CodecChains {
  import opened MoqTypes
  import opened CodecErrors

  /** One item: how it is written and read after state s, which items a reader accepts, and the next state. */
  datatype Codec<!S(!new), !T(!new)> = Codec(
    enc: (S, T) -> Result<Bytes>,
    dec: (S, Bytes) -> Result<(T, Bytes)>,
    accepts: (S, T) -> bool,
    next: (S, T) -> S)

  /** Reading inverts writing on accepted items and refuses the others; whatever is read can be written
      in no more bytes. */
  ghost predicate Sound<S(!new), T(!new)>(c: Codec<S, T>) {
    && Consumes(c)
    && (forall s, x, rest :: c.enc(s, x).Ok? ==>
          c.dec(s, c.enc(s, x).value + rest) == if c.accepts(s, x) then Ok((x, rest)) else Err(ProtocolViolation))
    && (forall s, b :: c.dec(s, b).Ok? ==> Rewritable(c, s, c.dec(s, b).value.0, |b| - |c.dec(s, b).value.1|))
  }

  ghost predicate Consumes<S(!new), T(!new)>(c: Codec<S, T>) {
    forall s, b :: c.dec(s, b).Ok? ==> |c.dec(s, b).value.1| < |b|
  }

  /** x was accepted, and can be written in at most size bytes. */
  predicate Rewritable<S(!new), T(!new)>(c: Codec<S, T>, s: S, x: T, size: int) {
    c.accepts(s, x) && c.enc(s, x).Ok? && |c.enc(s, x).value| <= size
  }

  function EncChain<S(!new), T(!new)>(c: Codec<S, T>, s: S, xs: seq<T>): Result<Bytes>
    decreases |xs|
  {
    if xs == [] then Ok([])
    else
      var first :- c.enc(s, xs[0]);
      var rest :- EncChain(c, c.next(s, xs[0]), xs[1..]);
      Ok(first + rest)
  }

  /** Exactly count items. */
  function DecChain<S(!new), T(!new)>(c: Codec<S, T>, s: S, count: nat, b: Bytes): (r: Result<(seq<T>, Bytes)>)
    ensures r.Ok? ==> |r.value.0| == count
    decreases count
  {
    if count == 0 then Ok(([], b))
    else
      var (x, rest) :- c.dec(s, b);
      var (more, after) :- DecChain(c, c.next(s, x), count - 1, rest);
      Ok(([x] + more, after))
  }

  /** Items until the bytes run out. */
  function DecRemaining<S(!new), T(!new)>(c: Codec<S, T>, s: S, b: Bytes): Result<seq<T>>
    requires Consumes(c)
    decreases |b|
  {
    if b == [] then Ok([])
    else
      var (x, rest) :- c.dec(s, b);
      var more :- DecRemaining(c, c.next(s, x), rest);
      Ok([x] + more)
  }

  predicate Accepted<S(!new), T(!new)>(c: Codec<S, T>, s: S, xs: seq<T>)
    decreases |xs|
  {
    xs == [] || (c.accepts(s, xs[0]) && Accepted(c, c.next(s, xs[0]), xs[1..]))
  }

  /** Counted lists: reading inverts writing exactly on accepted lists. */
  lemma {:induction false} ChainBack<S(!new), T(!new)>(c: Codec<S, T>, s: S, xs: seq<T>, rest: Bytes)
    requires Sound(c) && EncChain(c, s, xs).Ok?
    ensures DecChain(c, s, |xs|, EncChain(c, s, xs).value + rest)
         == if Accepted(c, s, xs) then Ok((xs, rest)) else Err(ProtocolViolation)
    decreases |xs|
  {
    if xs == [] {
      assert [] + rest == rest;
    } else {
      var first, more := c.enc(s, xs[0]).value, EncChain(c, c.next(s, xs[0]), xs[1..]).value;
      assert first + more + rest == first + (more + rest);
      ChainBack(c, c.next(s, xs[0]), xs[1..], rest);
      assert [xs[0]] + xs[1..] == xs;
    }
  }

  /** Lists to the end of the bytes: likewise. */
  lemma {:induction false} RemainingBack<S(!new), T(!new)>(c: Codec<S, T>, s: S, xs: seq<T>)
    requires Sound(c) && EncChain(c, s, xs).Ok? && Accepted(c, s, xs)
    ensures DecRemaining(c, s, EncChain(c, s, xs).value) == Ok(xs)
    decreases |xs|
  {
    if xs != [] {
      var first, more := c.enc(s, xs[0]).value, EncChain(c, c.next(s, xs[0]), xs[1..]).value;
      assert c.dec(s, first + more) == Ok((xs[0], more));
      RemainingBack(c, c.next(s, xs[0]), xs[1..]);
      assert [xs[0]] + xs[1..] == xs;
    }
  }

  /** A list that was read is accepted and can be written in no more bytes. */
  lemma {:induction false} ChainShrinks<S(!new), T(!new)>(c: Codec<S, T>, s: S, count: nat, b: Bytes)
    requires Sound(c) && DecChain(c, s, count, b).Ok?
    ensures var (xs, rest) := DecChain(c, s, count, b).value;
            Accepted(c, s, xs) && EncChain(c, s, xs).Ok? && |EncChain(c, s, xs).value| + |rest| <= |b|
    decreases count
  {
    if count != 0 {
      var (x, rest) := c.dec(s, b).value;
      assert Rewritable(c, s, x, |b| - |rest|);
      ChainShrinks(c, c.next(s, x), count - 1, rest);
      var (more, after) := DecChain(c, c.next(s, x), count - 1, rest).value;
      assert ([x] + more)[1..] == more;
    }
  }

  lemma {:induction false} RemainingShrinks<S(!new), T(!new)>(c: Codec<S, T>, s: S, b: Bytes)
    requires Sound(c) && DecRemaining(c, s, b).Ok?
    ensures var xs := DecRemaining(c, s, b).value;
            Accepted(c, s, xs) && EncChain(c, s, xs).Ok? && |EncChain(c, s, xs).value| <= |b|
    decreases |b|
  {
    if b != [] {
      var (x, rest) := c.dec(s, b).value;
      assert Rewritable(c, s, x, |b| - |rest|);
      RemainingShrinks(c, c.next(s, x), rest);
      var more := DecRemaining(c, c.next(s, x), rest).value;
      assert ([x] + more)[1..] == more;
    }
  }
}
