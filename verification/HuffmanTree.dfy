/** The Huffman tree the source builds node by node, and the decoder that walks it (`h3/qpack.rs`). */
module HuffmanTree {
  import opened MoqTypes
  import opened Modulo
  import opened HuffmanCodes

  /** Children are node numbers, or -1; so is the symbol. */
  datatype HNode = HNode(zero: int, one: int, symbol: int)

  function ChildOf(node: HNode, bit: bool): int { if bit then node.one else node.zero }

  // ---- Bits by shifting ----

  function Pow2(n: nat): (p: nat)
    ensures p > 0
  {
    if n == 0 then 1 else 2 * Pow2(n - 1)
  }

  lemma HalveThenDivide(a: nat, m: nat)
    requires m > 0
    ensures a / 2 / m == a / (2 * m)
  {
    var q, r := a / 2 / m, a / 2 % m;
    var q', r' := a / (2 * m), a % (2 * m);
    assert a / 2 == q * m + r;
    assert a == 2 * (q * m + r) + a % 2;
    assert a == q' * (2 * m) + r';
    assert 2 * (q * m) == q * (2 * m);
    assert (q' - q) * (2 * m) == q' * (2 * m) - q * (2 * m);
    SmallMultiple(q' - q, 2 * m);
  }

  lemma {:induction false} BitAt(v: nat, n: nat, i: nat)
    requires i < n
    ensures BitsOf(v, n)[i] == (v / Pow2(n - 1 - i) % 2 == 1)
  {
    if i < n - 1 {
      BitAt(v / 2, n - 1, i);
      HalveThenDivide(v, Pow2(n - 2 - i));
    }
  }

  // ---- Tries ----

  /** Every node stands for one path from the root; children extend it by their bit. */
  ghost predicate Shape(nodes: seq<HNode>, paths: seq<Bits>) {
    && |nodes| == |paths| > 0 && paths[0] == []
    && (forall i, j :: 0 <= i < j < |paths| ==> paths[i] != paths[j])
    && (forall i, bit :: 0 <= i < |nodes| ==> ChildFits(nodes, paths, i, bit))
  }

  ghost predicate ChildFits(nodes: seq<HNode>, paths: seq<Bits>, i: nat, bit: bool)
    requires i < |nodes| == |paths|
  {
    var c := ChildOf(nodes[i], bit);
    if c < 0 then paths[i] + [bit] !in paths else c < |nodes| && paths[c] == paths[i] + [bit]
  }

  /** The paths are exactly the beginnings of the first k codes, and of extra. */
  ghost predicate Covers(table: CodeTable, k: nat, extra: Bits, paths: seq<Bits>)
    requires k <= |table|
  {
    forall p :: p in paths <==> p == [] || Begins(table, k, p) || p <= extra
  }

  /** A node carries symbol s exactly when its path is the code of s. */
  ghost predicate Symbols(table: CodeTable, k: nat, nodes: seq<HNode>, paths: seq<Bits>)
    requires k <= |table| && |nodes| == |paths|
  {
    forall i :: 0 <= i < |nodes| ==>
      if nodes[i].symbol < 0 then forall s :: 0 <= s < k ==> paths[i] != CodeOf(table, s)
      else nodes[i].symbol < k && paths[i] == CodeOf(table, nodes[i].symbol)
  }

  /** The tree of the first k symbols. */
  ghost predicate TreeOf(table: CodeTable, k: nat, nodes: seq<HNode>, paths: seq<Bits>)
    requires k <= |table|
  {
    Shape(nodes, paths) && Covers(table, k, [], paths) && Symbols(table, k, nodes, paths)
  }

  const LEAF: HNode := HNode(-1, -1, -1)

  function WithChild(node: HNode, bit: bool, c: int): HNode {
    if bit then node.(one := c) else node.(zero := c)
  }

  lemma RootTree(table: CodeTable)
    ensures TreeOf(table, 0, [LEAF], [[]])
  {
  }

  /** A new node at the end of the path walked so far. */
  lemma GrowsByNode(table: CodeTable, k: nat, nodes: seq<HNode>, paths: seq<Bits>, idx: nat, code: Bits, d: nat)
    requires k < |table| && d < |code|
    requires Shape(nodes, paths) && Covers(table, k, code[..d], paths) && Symbols(table, k, nodes, paths)
    requires idx < |nodes| && paths[idx] == code[..d] && ChildOf(nodes[idx], code[d]) < 0
    ensures var nodes' := nodes[idx := WithChild(nodes[idx], code[d], |nodes|)] + [LEAF];
            var paths' := paths + [code[..d + 1]];
            Shape(nodes', paths') && Covers(table, k, code[..d + 1], paths') && Symbols(table, k, nodes', paths')
  {
    var nodes' := nodes[idx := WithChild(nodes[idx], code[d], |nodes|)] + [LEAF];
    var new_ := code[..d + 1];
    var paths' := paths + [new_];
    assert new_ == paths[idx] + [code[d]];
    assert ChildFits(nodes, paths, idx, code[d]);
    assert new_ !in paths;
    forall i, bit | 0 <= i < |nodes'| ensures ChildFits(nodes', paths', i, bit) {
      if i < |nodes| {
        assert ChildFits(nodes, paths, i, bit);
        assert paths[i] + [bit] == new_ ==> paths[i] == paths[idx] && bit == code[d] by {
          assert (paths[i] + [bit])[..|paths[i]|] == paths[i];
        }
      } else {
        assert new_ + [bit] !in paths by { NotBeyond(table, k, code[..d], paths, new_, bit); }
        assert new_ + [bit] != new_;
      }
    }
    forall p ensures p in paths' <==> p == [] || Begins(table, k, p) || p <= new_ {
      assert p <= new_ <==> p <= code[..d] || p == new_;
    }
  }

  /** Beyond a path that is not there, nothing is. */
  lemma NotBeyond(table: CodeTable, k: nat, extra: Bits, paths: seq<Bits>, p: Bits, bit: bool)
    requires k <= |table| && Covers(table, k, extra, paths) && p !in paths
    ensures p + [bit] !in paths
  {
    var q := p + [bit];
    if Begins(table, k, q) { BeginsShorter(table, k, p, q); }
  }

  /** The node is there already. */
  lemma WalksOn(table: CodeTable, k: nat, paths: seq<Bits>, code: Bits, d: nat)
    requires k <= |table| && d < |code| && Covers(table, k, code[..d], paths) && code[..d + 1] in paths
    ensures Covers(table, k, code[..d + 1], paths)
  {
    forall p ensures p in paths <==> p == [] || Begins(table, k, p) || p <= code[..d + 1] {
      assert p <= code[..d + 1] <==> p <= code[..d] || p == code[..d + 1];
    }
  }

  /** The symbol goes on the node its code leads to. */
  lemma SymbolSet(table: CodeTable, k: nat, nodes: seq<HNode>, paths: seq<Bits>, idx: nat)
    requires PrefixFree(table) && k < |table|
    requires Shape(nodes, paths) && Covers(table, k, CodeOf(table, k), paths) && Symbols(table, k, nodes, paths)
    requires idx < |nodes| && paths[idx] == CodeOf(table, k)
    ensures TreeOf(table, k + 1, nodes[idx := nodes[idx].(symbol := k)], paths)
  {
    var nodes' := nodes[idx := nodes[idx].(symbol := k)];
    forall i, bit | 0 <= i < |nodes'| ensures ChildFits(nodes', paths, i, bit) {
      assert ChildFits(nodes, paths, i, bit);
    }
    forall p ensures p in paths <==> p == [] || Begins(table, k + 1, p) || p <= [] {
      assert Begins(table, k + 1, p) <==> Begins(table, k, p) || p <= CodeOf(table, k);
    }
    forall i | 0 <= i < |nodes'|
      ensures if nodes'[i].symbol < 0 then forall s :: 0 <= s < k + 1 ==> paths[i] != CodeOf(table, s)
              else nodes'[i].symbol < k + 1 && paths[i] == CodeOf(table, nodes'[i].symbol)
    {
    }
  }

  /** Build the tree symbol by symbol, bit by bit. */
  method BuildHuffmanTree(table: CodeTable) returns (nodes: seq<HNode>, ghost paths: seq<Bits>)
    requires PrefixFree(table)
    ensures TreeOf(table, |table|, nodes, paths)
  {
    nodes := [LEAF];
    paths := [[]];
    RootTree(table);
    for symbol := 0 to |table|
      invariant TreeOf(table, symbol, nodes, paths)
    {
      var (code, length) := table[symbol];
      ghost var bits := CodeOf(table, symbol);
      var idx := 0;
      assert bits[..0] == [];
      for d := 0 to length
        invariant Shape(nodes, paths) && Covers(table, symbol, bits[..d], paths) && Symbols(table, symbol, nodes, paths)
        invariant 0 <= idx < |nodes| && paths[idx] == bits[..d]
      {
        BitAt(code, length, d);
        var bit := code / Pow2(length - 1 - d) % 2 == 1;
        assert bits[..d + 1] == bits[..d] + [bit];
        assert ChildFits(nodes, paths, idx, bit);
        if ChildOf(nodes[idx], bit) < 0 {
          GrowsByNode(table, symbol, nodes, paths, idx, bits, d);
          var newIdx := |nodes|;
          nodes := nodes[idx := WithChild(nodes[idx], bit, newIdx)] + [LEAF];
          paths := paths + [bits[..d + 1]];
          idx := newIdx;
        } else {
          idx := ChildOf(nodes[idx], bit);
          WalksOn(table, symbol, paths, bits, d);
        }
      }
      assert bits[..length] == bits;
      SymbolSet(table, symbol, nodes, paths, idx);
      nodes := nodes[idx := nodes[idx].(symbol := symbol)];
    }
  }

  // ---- What the tree knows ----

  /** Follow a bit path from a node; -1 when it leaves the tree. */
  function Walk(nodes: seq<HNode>, from: int, bits: Bits): int {
    if bits == [] then from
    else
      var mid := Walk(nodes, from, bits[..|bits| - 1]);
      if 0 <= mid < |nodes| then ChildOf(nodes[mid], bits[|bits| - 1]) else -1
  }

  lemma {:induction false} WalkFollowsPath(nodes: seq<HNode>, paths: seq<Bits>, bits: Bits)
    requires Shape(nodes, paths) && (forall k :: 0 <= k <= |bits| ==> bits[..k] in paths)
    ensures 0 <= Walk(nodes, 0, bits) < |nodes| && paths[Walk(nodes, 0, bits)] == bits
  {
    if bits != [] {
      var n := |bits| - 1;
      assert forall k :: 0 <= k <= n ==> bits[..n][..k] == bits[..k];
      WalkFollowsPath(nodes, paths, bits[..n]);
      var mid := Walk(nodes, 0, bits[..n]);
      assert bits == bits[..n] + [bits[n]] && bits[..|bits|] == bits;
      assert ChildFits(nodes, paths, mid, bits[n]);
    }
  }

  /** The path of every code leads to a leaf that holds its symbol. */
  lemma CodeLeadsToSymbol(table: CodeTable, nodes: seq<HNode>, paths: seq<Bits>, s: nat)
    requires PrefixFree(table) && TreeOf(table, |table|, nodes, paths) && s < |table|
    ensures var leaf := Walk(nodes, 0, CodeOf(table, s));
            0 <= leaf < |nodes| && nodes[leaf].symbol == s && nodes[leaf].zero < 0 && nodes[leaf].one < 0
  {
    var code := CodeOf(table, s);
    forall k | 0 <= k <= |code| ensures code[..k] in paths {
      assert code[..k] <= CodeOf(table, s);
      assert Begins(table, |table|, code[..k]);
    }
    WalkFollowsPath(nodes, paths, code);
    var leaf := Walk(nodes, 0, code);
    var t := nodes[leaf].symbol;
    assert t >= 0 && CodeOf(table, t) == code;
    CodesDiffer(table, code, s, t);
    NothingAfterCode(table, paths, s, false);
    NothingAfterCode(table, paths, s, true);
    assert ChildFits(nodes, paths, leaf, false) && ChildFits(nodes, paths, leaf, true);
  }

  lemma StaysOff(a: Bits, bit: bool, c: Bits)
    ensures !(a <= c) ==> !(a + [bit] <= c)
  {
  }

  lemma NothingAfterCode(table: CodeTable, paths: seq<Bits>, s: nat, bit: bool)
    requires PrefixFree(table) && Covers(table, |table|, [], paths) && s < |table|
    ensures CodeOf(table, s) + [bit] !in paths
  {
    var q := CodeOf(table, s) + [bit];
    forall t | 0 <= t < |table| ensures !(q <= CodeOf(table, t)) {
      StaysOff(CodeOf(table, s), bit, CodeOf(table, t));
      assert t != s ==> !(CodeOf(table, s) <= CodeOf(table, t));
    }
  }

  // ---- Decoding by the tree ----

  /** Walk the tree along the bits of v, from the highest to the lowest. */
  method WalkBits(ghost table: CodeTable, tree: seq<HNode>, ghost paths: seq<Bits>, v: nat, n: nat, from: nat,
                  out: Bytes,
                  ghost before: Bits, ghost bits: Bits)
    returns (ok: bool, nodeIdx: nat, result: Bytes, ghost j: nat)
    requires PrefixFree(table) && TreeOf(table, |table|, tree, paths) && from < |tree|
    requires |bits| == n && forall i :: 0 <= i < n ==> bits[i] == (v / Pow2(n - 1 - i) % 2 == 1)
    requires Run(table, State([], []), before) == Some(State(out, paths[from]))
    ensures ok ==> nodeIdx < |tree| && Run(table, State([], []), before + bits) == Some(State(result, paths[nodeIdx]))
    ensures !ok ==> j < n && Run(table, State([], []), before + bits[..j + 1]) == None
  {
    nodeIdx, result, j := from, out, 0;
    ghost var start := State([], []);
    assert bits[..0] == [] && before + [] == before;
    for i := 0 to n
      invariant nodeIdx < |tree|
      invariant Run(table, start, before + bits[..i]) == Some(State(result, paths[nodeIdx]))
    {
      var bit := v / Pow2(n - 1 - i) % 2 == 1;
      RunBit(table, start, before, bits, i);
      TreeStep(table, tree, paths, nodeIdx, result, bit);
      var next := ChildOf(tree[nodeIdx], bit);
      if next < 0 {
        return false, nodeIdx, result, i;
      }
      nodeIdx := next;
      if tree[nodeIdx].symbol >= 0 {
        result := result + [tree[nodeIdx].symbol];
        nodeIdx := 0;
      }
    }
    assert bits[..n] == bits;
    ok := true;
  }

  /** Decode data by walking the tree. Bits left over at the end are not looked at. */
  method HuffmanDecode(table: CodeTable, data: Bytes) returns (r: Option<Bytes>)
    requires PrefixFree(table)
    ensures r == Decode(table, BytesToBits(data))
  {
    ghost var paths;
    var tree: seq<HNode>;
    tree, paths := BuildHuffmanTree(table);
    var result: Bytes := [];
    var nodeIdx: nat := 0;
    for i := 0 to |data|
      invariant nodeIdx < |tree|
      invariant Run(table, State([], []), BytesToBits(data[..i])) == Some(State(result, paths[nodeIdx]))
    {
      ghost var j;
      var ok;
      assert data[..i + 1][..i] == data[..i];
      forall k | 0 <= k < 8 ensures BitsOf(data[i], 8)[k] == (data[i] / Pow2(8 - 1 - k) % 2 == 1) {
        BitAt(data[i], 8, k);
      }
      ok, nodeIdx, result, j :=
        WalkBits(table, tree, paths, data[i], 8, nodeIdx, result, BytesToBits(data[..i]), BitsOf(data[i], 8));
      if !ok {
        RunStops(table, State([], []), data, i, j);
        return None;
      }
    }
    assert data[..|data|] == data;
    return Some(result);
  }

  lemma RunSnoc(table: CodeTable, st: State, bits: Bits, bit: bool)
    requires |table| <= 256
    ensures Run(table, st, bits + [bit])
         == match Run(table, st, bits) case None => None case Some(mid) => NextBit(table, mid, bit)
  {
    assert (bits + [bit])[..|bits|] == bits;
  }

  lemma RunBit(table: CodeTable, st: State, before: Bits, bits: Bits, i: nat)
    requires |table| <= 256 && i < |bits|
    ensures Run(table, st, before + bits[..i + 1])
         == match Run(table, st, before + bits[..i]) case None => None case Some(mid) => NextBit(table, mid, bits[i])
  {
    assert before + bits[..i + 1] == before + bits[..i] + [bits[i]];
    RunSnoc(table, st, before + bits[..i], bits[i]);
  }

  /** One step in the tree is one step along the codes. */
  lemma TreeStep(table: CodeTable, nodes: seq<HNode>, paths: seq<Bits>, idx: nat, out: Bytes, bit: bool)
    requires PrefixFree(table) && TreeOf(table, |table|, nodes, paths) && idx < |nodes|
    ensures var c := ChildOf(nodes[idx], bit);
            var r := NextBit(table, State(out, paths[idx]), bit);
            if c < 0 then r == None
            else c < |nodes| && nodes[c].symbol < |table| &&
                 r == Some(if nodes[c].symbol >= 0 then State(out + [nodes[c].symbol], []) else State(out, paths[c]))
  {
    var c := ChildOf(nodes[idx], bit);
    var p := paths[idx] + [bit];
    assert ChildFits(nodes, paths, idx, bit);
    assert p != [] && !(p <= []);
    if c >= 0 {
      assert p in paths && Begins(table, |table|, p);
      if nodes[c].symbol >= 0 {
        var s: nat := nodes[c].symbol;
        assert IsCode(table, p, s);
        forall t: nat | IsCode(table, p, t) ensures t == s { CodesDiffer(table, p, s, t); }
      } else {
        assert forall s: nat :: !IsCode(table, p, s);
      }
    }
  }

  /** Once no code goes on, none will. */
  lemma RunStops(table: CodeTable, st: State, data: Bytes, i: nat, j: nat)
    requires |table| <= 256 && i < |data| && j < 8
    requires Run(table, st, BytesToBits(data[..i]) + BitsOf(data[i], 8)[..j + 1]) == None
    ensures Run(table, st, BytesToBits(data)) == None
  {
    var head := BytesToBits(data[..i]) + BitsOf(data[i], 8)[..j + 1];
    var tail := BitsOf(data[i], 8)[j + 1..] + BytesToBits(data[i + 1..]);
    BytesToBitsAppend(data[..i], data[i..]);
    assert data[..i] + data[i..] == data;
    BytesToBitsCons(data[i..]);
    assert data[i..][1..] == data[i + 1..];
    assert BytesToBits(data) == head + tail;
    RunAppend(table, st, head, tail);
  }

  lemma {:induction false} BytesToBitsAppend(xs: Bytes, ys: Bytes)
    ensures BytesToBits(xs + ys) == BytesToBits(xs) + BytesToBits(ys)
    decreases |ys|
  {
    if ys == [] {
      assert xs + ys == xs;
    } else {
      var n := |ys| - 1;
      assert (xs + ys)[..|xs + ys| - 1] == xs + ys[..n];
      BytesToBitsAppend(xs, ys[..n]);
    }
  }

  lemma BytesToBitsCons(xs: Bytes)
    requires xs != []
    ensures BytesToBits(xs) == BitsOf(xs[0], 8) + BytesToBits(xs[1..])
  {
    var one := [xs[0]];
    assert one[..0] == [] && BytesToBits([]) == [];
    assert BytesToBits(one) == BitsOf(xs[0], 8);
    assert one + xs[1..] == xs;
    BytesToBitsAppend(one, xs[1..]);
  }
}
