/** Parsers fed piece by piece: what a buffer-and-retry loop yields, however its input is cut. */
module StreamParsers {
  import opened MoqTypes

  /** One attempt: an item and the bytes after it, too few bytes, or an error. */
  datatype Step<+T, +E> = Item(item: T, rest: Bytes) | NeedMore | Bad(error: E)

  datatype Outcome<+T, +E> = Got(item: T) | Failed(error: E)

  type Parser<T, E> = Bytes -> Step<T, E>

  /** Items and errors do not depend on what follows, and items take at least one byte. */
  ghost predicate Stable<T(!new), E(!new)>(p: Parser<T, E>) {
    && Consuming(p)
    && (forall b, more :: p(b).Item? ==> p(b + more) == Item(p(b).item, p(b).rest + more))
    && (forall b, more :: p(b).Bad? ==> p(b + more) == p(b))
  }

  ghost predicate Consuming<T(!new), E(!new)>(p: Parser<T, E>) {
    forall b :: p(b).Item? ==> |p(b).rest| < |b|
  }

  /** The loop of `feed`: results, and the bytes kept. */
  function Drain<T(!new), E(!new)>(p: Parser<T, E>, b: Bytes): (seq<Outcome<T, E>>, Bytes)
    requires Consuming(p)
    decreases |b|
  {
    match p(b)
    case NeedMore => ([], b)
    case Bad(e) => ([Failed(e)], b)
    case Item(x, rest) => var (more, left) := Drain(p, rest); ([Got(x)] + more, left)
  }

  predicate Broken<T, E>(rs: seq<Outcome<T, E>>) { rs != [] && rs[|rs| - 1].Failed? }

  /** Several feeds one after the other, from a buffer. */
  function FeedAll<T(!new), E(!new)>(p: Parser<T, E>, buf: Bytes, chunks: seq<Bytes>): (seq<Outcome<T, E>>, Bytes)
    requires Consuming(p)
    decreases |chunks|
  {
    if chunks == [] then ([], buf)
    else
      var (first, left) := Drain(p, buf + chunks[0]);
      var (more, rest) := FeedAll(p, left, chunks[1..]);
      (first + more, rest)
  }

  function Joined(chunks: seq<Bytes>): Bytes {
    if chunks == [] then [] else chunks[0] + Joined(chunks[1..])
  }

  function Repeat<T>(x: T, n: nat): seq<T> {
    if n == 0 then [] else [x] + Repeat(x, n - 1)
  }

  predicate AllGot<T, E>(rs: seq<Outcome<T, E>>) { forall i :: 0 <= i < |rs| ==> rs[i].Got? }

  /** Only the last result can be an error. */
  lemma {:induction false} ErrorsComeLast<T(!new), E(!new)>(p: Parser<T, E>, b: Bytes)
    requires Consuming(p)
    ensures AllGot(Drain(p, b).0) || (Broken(Drain(p, b).0) && AllGot(Drain(p, b).0[..|Drain(p, b).0| - 1]))
    decreases |b|
  {
    if p(b).Item? {
      ErrorsComeLast(p, p(b).rest);
      var more := Drain(p, p(b).rest).0;
      var rs := [Got(p(b).item)] + more;
      assert rs == Drain(p, b).0;
      if more != [] {
        assert rs[..|rs| - 1] == [Got(p(b).item)] + more[..|more| - 1];
      }
    }
  }

  /** More bytes only continue what has been drained. */
  lemma {:induction false} DrainMore<T(!new), E(!new)>(p: Parser<T, E>, b: Bytes, more: Bytes)
    requires Stable(p)
    ensures var (rs, left) := Drain(p, b);
            Drain(p, b + more) == if Broken(rs) then (rs, left + more)
                                  else (rs + Drain(p, left + more).0, Drain(p, left + more).1)
    decreases |b|
  {
    match p(b)
    case NeedMore => assert [] + Drain(p, b + more).0 == Drain(p, b + more).0;
    case Bad(e) =>
    case Item(x, rest) =>
      DrainMore(p, rest, more);
      assert Drain(p, b + more) == ([Got(x)] + Drain(p, rest + more).0, Drain(p, rest + more).1);
      OneBefore(Got(x), Drain(p, rest).0, Drain(p, Drain(p, rest).1 + more).0);
  }

  lemma OneBefore<T, E>(first: Outcome<T, E>, rs: seq<Outcome<T, E>>, more: seq<Outcome<T, E>>)
    requires first.Got?
    ensures Broken([first] + rs) <==> Broken(rs)
    ensures [first] + (rs + more) == [first] + rs + more
  {
  }

  /** A parser that has met an error meets it again on every further byte. */
  lemma {:induction false} BrokenStays<T(!new), E(!new)>(p: Parser<T, E>, b: Bytes, more: Bytes)
    requires Stable(p) && Broken(Drain(p, b).0)
    ensures var (rs, left) := Drain(p, b); Drain(p, left + more) == ([rs[|rs| - 1]], left + more)
    decreases |b|
  {
    match p(b)
    case Bad(e) =>
    case Item(x, rest) =>
      BrokenStays(p, rest, more);
  }

  /** However the input is cut, an error-free stream gives the same results and keeps the same bytes. */
  lemma {:induction false} ChunkingIndependent<T(!new), E(!new)>(p: Parser<T, E>, buf: Bytes, chunks: seq<Bytes>)
    requires Stable(p) && p(buf) == NeedMore
    requires !Broken(Drain(p, buf + Joined(chunks)).0)
    ensures FeedAll(p, buf, chunks) == Drain(p, buf + Joined(chunks))
    decreases |chunks|
  {
    if chunks == [] {
      assert buf + [] == buf;
    } else {
      var b, later := buf + chunks[0], Joined(chunks[1..]);
      assert buf + Joined(chunks) == b + later;
      DrainMore(p, b, later);
      DrainEnds(p, b);
      ChunkingIndependent(p, Drain(p, b).1, chunks[1..]);
    }
  }

  /** Unless it met an error, a drained buffer needs more bytes. */
  lemma {:induction false} DrainEnds<T(!new), E(!new)>(p: Parser<T, E>, b: Bytes)
    requires Consuming(p) && !Broken(Drain(p, b).0)
    ensures p(Drain(p, b).1) == NeedMore
    decreases |b|
  {
    if p(b).Item? {
      var rs := Drain(p, p(b).rest).0;
      assert Broken([Got(p(b).item)] + rs) <==> Broken(rs);
      DrainEnds(p, p(b).rest);
    }
  }

  /** How many feeds follow the one in which the error shows. */
  function LaterFeeds<T(!new), E(!new)>(p: Parser<T, E>, buf: Bytes, chunks: seq<Bytes>): nat
    requires Consuming(p)
    decreases |chunks|
  {
    if chunks == [] then 0
    else if Broken(Drain(p, buf + chunks[0]).0) then |chunks| - 1
    else LaterFeeds(p, Drain(p, buf + chunks[0]).1, chunks[1..])
  }

  /** With an error in the stream, the results are the same up to it, each later feed repeats it once,
      and the same bytes are kept. */
  lemma {:induction false} ChunkingUpToError<T(!new), E(!new)>(p: Parser<T, E>, buf: Bytes, chunks: seq<Bytes>)
    requires Stable(p) && p(buf) == NeedMore
    requires Broken(Drain(p, buf + Joined(chunks)).0)
    ensures var (rs, left) := Drain(p, buf + Joined(chunks));
            FeedAll(p, buf, chunks) == (rs + Repeat(rs[|rs| - 1], LaterFeeds(p, buf, chunks)), left)
    decreases |chunks|
  {
    assert chunks == [] ==> buf + Joined(chunks) == buf;
    if chunks != [] {
      var b, later := buf + chunks[0], Joined(chunks[1..]);
      assert buf + Joined(chunks) == b + later;
      DrainMore(p, b, later);
      var (first, left) := Drain(p, b);
      if Broken(first) {
        RepeatsError(p, b, [], chunks[1..]);
        assert left + [] == left;
      } else {
        DrainEnds(p, b);
        ChunkingUpToError(p, left, chunks[1..]);
        ContinueBroken(first, Drain(p, left + later).0, LaterFeeds(p, left, chunks[1..]));
      }
    }
  }

  lemma ContinueBroken<T>(first: seq<T>, rest: seq<T>, n: nat)
    requires rest != []
    ensures first + (rest + Repeat(rest[|rest| - 1], n)) == first + rest + Repeat((first + rest)[|first + rest| - 1], n)
  {
  }

  lemma {:induction false} RepeatsError<T(!new), E(!new)>(p: Parser<T, E>, b: Bytes, more: Bytes, chunks: seq<Bytes>)
    requires Stable(p) && Broken(Drain(p, b).0)
    ensures var (rs, left) := Drain(p, b);
            FeedAll(p, left + more, chunks) == (Repeat(rs[|rs| - 1], |chunks|), left + more + Joined(chunks))
    decreases |chunks|
  {
    var left := Drain(p, b).1;
    if chunks == [] {
      assert left + more + [] == left + more;
    } else {
      assert left + more + chunks[0] == left + (more + chunks[0]);
      assert left + more + Joined(chunks) == left + (more + chunks[0]) + Joined(chunks[1..]);
      BrokenStays(p, b, more + chunks[0]);
      RepeatsError(p, b, more + chunks[0], chunks[1..]);
    }
  }

  /** Both cases in one, from an empty buffer. */
  lemma AnyChunking<T(!new), E(!new)>(p: Parser<T, E>, chunks: seq<Bytes>)
    requires Stable(p) && p([]) == NeedMore
    ensures var (rs, left) := Drain(p, Joined(chunks));
            FeedAll(p, [], chunks) == (if Broken(rs) then rs + Repeat(rs[|rs| - 1], LaterFeeds(p, [], chunks))
                                       else rs, left)
  {
    assert [] + Joined(chunks) == Joined(chunks);
    if Broken(Drain(p, Joined(chunks)).0) {
      ChunkingUpToError(p, [], chunks);
    } else {
      ChunkingIndependent(p, [], chunks);
    }
  }

  // ---- Streams of encoded items ----

  /** bs is a complete encoding of x: the parser finds x and leaves what follows. */
  ghost predicate Encodes<T(!new), E(!new)>(p: Parser<T, E>, bs: Bytes, x: T) {
    forall rest :: p(bs + rest) == Item(x, rest)
  }

  function GotAll<T, E>(xs: seq<T>): seq<Outcome<T, E>> {
    if xs == [] then [] else [Got(xs[0])] + GotAll(xs[1..])
  }

  /** A list of encoded items and an unfinished tail: exactly the items come out and the tail is kept. */
  lemma {:induction false} ListRecovered<T(!new), E(!new)>(p: Parser<T, E>, xs: seq<T>, encoded: seq<Bytes>,
                                                           tail: Bytes)
    requires Consuming(p) && |xs| == |encoded| && p(tail) == NeedMore
    requires forall i :: 0 <= i < |xs| ==> Encodes(p, encoded[i], xs[i])
    ensures Drain(p, Joined(encoded) + tail) == (GotAll<T, E>(xs), tail)
    decreases |xs|
  {
    if xs == [] {
      assert [] + tail == tail;
    } else {
      var rest := Joined(encoded[1..]) + tail;
      assert Joined(encoded) + tail == encoded[0] + rest;
      assert Encodes(p, encoded[0], xs[0]);
      ListRecovered(p, xs[1..], encoded[1..], tail);
    }
  }

  /** A proper prefix of an encoded item needs more bytes. */
  lemma PrefixNeedsMore<T(!new), E(!new)>(p: Parser<T, E>, bs: Bytes, x: T, k: nat)
    requires Stable(p) && Encodes(p, bs, x) && k < |bs|
    ensures p(bs[..k]) == NeedMore
  {
    assert bs[..k] + bs[k..] == bs;
    assert bs + [] == bs;
    assert p(bs) == Item(x, []);
    assert p(bs[..k] + bs[k..]) == p(bs) && bs[k..] != [];
  }

  /** However a stream is cut, its first error comes after the same items, and it is e or not alike. */
  lemma SameFirstError<T(!new), E(!new)>(p: Parser<T, E>, chunks: seq<Bytes>, e: E)
    requires Stable(p) && p([]) == NeedMore
    ensures var rs, fed := Drain(p, Joined(chunks)).0, FeedAll(p, [], chunks).0;
            rs <= fed && (Failed(e) in fed <==> Broken(rs) && rs[|rs| - 1] == Failed(e))
  {
    AnyChunking(p, chunks);
    ErrorsComeLast(p, Joined(chunks));
    FirstErrorRepeated(Drain(p, Joined(chunks)).0, FeedAll(p, [], chunks).0, LaterFeeds(p, [], chunks), e);
  }

  lemma FirstErrorRepeated<T, E>(rs: seq<Outcome<T, E>>, fed: seq<Outcome<T, E>>, n: nat, e: E)
    requires AllGot(rs) || (Broken(rs) && AllGot(rs[..|rs| - 1]))
    requires fed == if Broken(rs) then rs + Repeat(rs[|rs| - 1], n) else rs
    ensures rs <= fed && (Failed(e) in fed <==> Broken(rs) && rs[|rs| - 1] == Failed(e))
  {
    if Broken(rs) {
      OnlyRepeats(rs[|rs| - 1], n);
      assert forall i :: 0 <= i < |rs| - 1 ==> rs[i] == rs[..|rs| - 1][i];
    }
  }

  lemma {:induction false} OnlyRepeats<T>(x: T, n: nat)
    ensures forall y :: y in Repeat(x, n) ==> y == x
    decreases n
  {
    if n > 0 { OnlyRepeats(x, n - 1); }
  }
}
