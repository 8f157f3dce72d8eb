/** Huffman strings (section 5.2 of RFC 7541): what decoding means for any prefix-free code table. */
module HuffmanCodes {
  import opened MoqTypes

  type Bits = seq<bool>

  /** The n low bits of a number, most significant first. */
  function BitsOf(v: nat, n: nat): (b: Bits)
    ensures |b| == n
  {
    if n == 0 then [] else BitsOf(v / 2, n - 1) + [v % 2 == 1]
  }

  function BytesToBits(data: Bytes): Bits {
    if data == [] then [] else BytesToBits(data[..|data| - 1]) + BitsOf(data[|data| - 1], 8)
  }

  /** Code and length of every symbol; symbols are positions in the table. */
  type CodeTable = seq<(nat, nat)>

  function CodeOf(table: CodeTable, s: nat): Bits
    requires s < |table|
  {
    BitsOf(table[s].0, table[s].1)
  }

  /** No code is empty and none begins another. */
  ghost predicate PrefixFree(table: CodeTable) {
    && |table| <= 256
    && (forall s :: 0 <= s < |table| ==> table[s].1 > 0)
    && (forall s, t :: 0 <= s < |table| && 0 <= t < |table| && s != t ==> !(CodeOf(table, s) <= CodeOf(table, t)))
  }

  /** p begins some code of the first k symbols. */
  ghost predicate Begins(table: CodeTable, k: nat, p: Bits)
    requires k <= |table|
  {
    exists s :: 0 <= s < k && p <= CodeOf(table, s)
  }

  ghost predicate IsCode(table: CodeTable, p: Bits, s: nat) {
    s < |table| && p == CodeOf(table, s)
  }

  // ---- Decoding, in terms of the table alone ----

  datatype State = State(out: Bytes, path: Bits)

  /** One more bit: the path grows along the codes; a complete code is a symbol. None: no code goes this way. */
  ghost function NextBit(table: CodeTable, st: State, bit: bool): Option<State>
    requires |table| <= 256
  {
    var p := st.path + [bit];
    if !Begins(table, |table|, p) then None
    else if exists s: nat :: IsCode(table, p, s) then
      var s: nat :| IsCode(table, p, s);
      Some(State(st.out + [s], []))
    else Some(State(st.out, p))
  }

  /** All bits in turn. */
  ghost function Run(table: CodeTable, st: State, bits: Bits): Option<State>
    requires |table| <= 256
  {
    if bits == [] then Some(st)
    else
      match Run(table, st, bits[..|bits| - 1])
      case None => None
      case Some(mid) => NextBit(table, mid, bits[|bits| - 1])
  }

  /** The decoder looks at the output only: whatever is left on the path is taken for padding. */
  ghost function Decode(table: CodeTable, bits: Bits): Option<Bytes>
    requires |table| <= 256
  {
    match Run(table, State([], []), bits) case None => None case Some(st) => Some(st.out)
  }

  // ---- What it accepts ----

  predicate InTable(table: CodeTable, str: Bytes) { forall i :: 0 <= i < |str| ==> str[i] < |table| }

  /** The codes of a string, one after the other. */
  function Encode(table: CodeTable, str: Bytes): Bits
    requires InTable(table, str)
  {
    if str == [] then [] else Encode(table, str[..|str| - 1]) + CodeOf(table, str[|str| - 1])
  }

  /** Padding: a proper beginning of some code, or nothing. */
  ghost predicate Unfinished(table: CodeTable, p: Bits) {
    p == [] || (Begins(table, |table|, p) && forall s: nat :: !IsCode(table, p, s))
  }

  lemma CodesDiffer(table: CodeTable, p: Bits, s: nat, t: nat)
    requires PrefixFree(table) && IsCode(table, p, s) && IsCode(table, p, t)
    ensures s == t
  {
    assert CodeOf(table, s) <= CodeOf(table, t);
  }

  /** The state after some bits: they are the codes of the output followed by the path. */
  lemma {:induction false} RunMeans(table: CodeTable, bits: Bits)
    requires PrefixFree(table)
    ensures var r := Run(table, State([], []), bits);
            r.Some? ==> InTable(table, r.value.out) && Unfinished(table, r.value.path)
                        && bits == Encode(table, r.value.out) + r.value.path
  {
    if bits != [] {
      var n := |bits| - 1;
      RunMeans(table, bits[..n]);
      var mid := Run(table, State([], []), bits[..n]);
      assert bits == bits[..n] + [bits[n]];
      if mid.Some? {
        NextMeans(table, mid.value, bits[n]);
      }
    }
  }

  lemma NextMeans(table: CodeTable, st: State, bit: bool)
    requires PrefixFree(table) && InTable(table, st.out)
    ensures var r := NextBit(table, st, bit);
            r.Some? ==> InTable(table, r.value.out) && Unfinished(table, r.value.path)
                        && Encode(table, r.value.out) + r.value.path == Encode(table, st.out) + st.path + [bit]
  {
    var p := st.path + [bit];
    if exists s: nat :: IsCode(table, p, s) {
      var s: nat :| IsCode(table, p, s);
      forall t: nat | IsCode(table, p, t) ensures t == s { CodesDiffer(table, p, s, t); }
      var out: Bytes := st.out + [s];
      assert out[..|out| - 1] == st.out;
      assert Encode(table, out) == Encode(table, st.out) + p;
      assert Encode(table, out) + [] == Encode(table, out);
      assert Encode(table, st.out) + p == Encode(table, st.out) + st.path + [bit];
    } else {
      assert Encode(table, st.out) + p == Encode(table, st.out) + st.path + [bit];
    }
  }

  /** A proper beginning of a code is not itself a code. */
  lemma ProperBeginning(table: CodeTable, q: Bits, t: nat, s: nat)
    requires PrefixFree(table) && t < |table| && q <= CodeOf(table, t) && |q| < |CodeOf(table, t)|
    ensures !IsCode(table, q, s)
  {
    if s < |table| && s != t {
      assert !(CodeOf(table, s) <= CodeOf(table, t));
    }
  }

  lemma BeginsShorter(table: CodeTable, k: nat, p: Bits, q: Bits)
    requires k <= |table| && Begins(table, k, q) && p <= q
    ensures Begins(table, k, p)
  {
    var s :| 0 <= s < k && q <= CodeOf(table, s);
    assert p <= CodeOf(table, s);
  }

  /** Bits that begin a code but do not finish one just lengthen the path. */
  lemma {:induction false} RunInside(table: CodeTable, st: State, p: Bits)
    requires PrefixFree(table) && st.path == [] && Unfinished(table, p)
    ensures Run(table, st, p) == Some(State(st.out, p))
  {
    if p != [] {
      var q := p[..|p| - 1];
      assert p == q + [p[|p| - 1]];
      BeginsShorter(table, |table|, q, p);
      forall s: nat ensures !IsCode(table, q, s) || q == [] {
        var t :| 0 <= t < |table| && p <= CodeOf(table, t);
        ProperBeginning(table, q, t, s);
      }
      RunInside(table, st, q);
    }
  }

  /** A complete code is its symbol. */
  lemma RunCode(table: CodeTable, st: State, s: nat)
    requires PrefixFree(table) && st.path == [] && s < |table|
    ensures Run(table, st, CodeOf(table, s)) == Some(State(st.out + [s], []))
  {
    var c := CodeOf(table, s);
    var q := c[..|c| - 1];
    assert c == q + [c[|c| - 1]];
    assert q <= CodeOf(table, s);
    forall t: nat ensures !IsCode(table, q, t) || q == [] {
      ProperBeginning(table, q, s, t);
    }
    RunInside(table, st, q);
    assert IsCode(table, c, s) && Begins(table, |table|, c);
    forall t: nat | IsCode(table, c, t) ensures t == s { CodesDiffer(table, c, s, t); }
  }

  lemma {:induction false} RunAppend(table: CodeTable, st: State, xs: Bits, ys: Bits)
    requires |table| <= 256
    ensures Run(table, st, xs + ys)
         == match Run(table, st, xs) case None => None case Some(mid) => Run(table, mid, ys)
    decreases |ys|
  {
    if ys == [] {
      assert xs + ys == xs;
    } else {
      var n := |ys| - 1;
      assert (xs + ys)[..|xs + ys| - 1] == xs + ys[..n];
      RunAppend(table, st, xs, ys[..n]);
    }
  }

  lemma {:induction false} RunCodes(table: CodeTable, str: Bytes)
    requires PrefixFree(table) && InTable(table, str)
    ensures Run(table, State([], []), Encode(table, str)) == Some(State(str, []))
  {
    if str != [] {
      var n := |str| - 1;
      RunCodes(table, str[..n]);
      RunOneMore(table, str[..n], str[n]);
      assert str[..n] + [str[n]] == str;
    }
  }

  lemma RunOneMore(table: CodeTable, str: Bytes, b: Byte)
    requires PrefixFree(table) && InTable(table, str) && b < |table|
    requires Run(table, State([], []), Encode(table, str)) == Some(State(str, []))
    ensures Run(table, State([], []), Encode(table, str) + CodeOf(table, b)) == Some(State(str + [b], []))
  {
    RunAppend(table, State([], []), Encode(table, str), CodeOf(table, b));
    RunCode(table, State(str, []), b);
  }

  /** A bit string decodes to str exactly when it is the codes of str followed by an unfinished code.
      Padding need not be all ones and need not be short. */
  lemma DecodesIff(table: CodeTable, bits: Bits, str: Bytes)
    requires PrefixFree(table)
    ensures Decode(table, bits) == Some(str)
       <==> InTable(table, str) && exists p :: Unfinished(table, p) && bits == Encode(table, str) + p
  {
    RunMeans(table, bits);
    if InTable(table, str) && exists p :: Unfinished(table, p) && bits == Encode(table, str) + p {
      var p :| Unfinished(table, p) && bits == Encode(table, str) + p;
      RunCodes(table, str);
      RunAppend(table, State([], []), Encode(table, str), p);
      RunInside(table, State(str, []), p);
    }
  }

  function Ones(n: nat): Bits {
    if n == 0 then [] else Ones(n - 1) + [true]
  }

  /** The requirement on the table behind the padding rule: up to seven ones are never a code. */
  ghost predicate OnesUnfinished(table: CodeTable) {
    forall n: nat :: n <= 7 ==> Unfinished(table, Ones(n))
  }

  /** A string encoded and padded with ones to whole bytes decodes to itself. */
  lemma PaddedStringDecodes(table: CodeTable, str: Bytes, n: nat, data: Bytes)
    requires PrefixFree(table) && OnesUnfinished(table) && InTable(table, str) && n <= 7
    requires BytesToBits(data) == Encode(table, str) + Ones(n)
    ensures Decode(table, BytesToBits(data)) == Some(str)
  {
    DecodesIff(table, BytesToBits(data), str);
  }
}
