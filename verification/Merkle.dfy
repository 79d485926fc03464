/** The merkle trees of BEP 52: their layers, padding, roots and proofs, over any
    pair hash. */
module Merkle {
  import opened Basics
  import opened Powers

  type Hash = seq<bv8>
  type Pair = (Hash, Hash) -> Hash

  const ZERO: Hash := seq(32, _ => 0)

  /** nextPow2: the least power of two that is at least `n`. */
  method NextPow2(n: nat) returns (p: nat)
    ensures p == Pow2(CeilLog(n)) && p >= n && forall k: nat :: Pow2(k) >= n ==> p <= Pow2(k)
  {
    p := 1;
    ghost var j: nat := 0;
    while p < n
      invariant p == Pow2(j) && j <= CeilLog(n)
      decreases n - p
    {
      p, j := p * 2, j + 1;
    }
    CeilLogIsLeast(n, j);
    forall k: nat | Pow2(k) >= n
      ensures p <= Pow2(k)
    {
      CeilLogIsLeast(n, k);
      Pow2Grows(CeilLog(n), k);
    }
  }

  // ---- Layers.

  /** The layer above. */
  function Parent(h: Pair, nodes: seq<Hash>): (r: seq<Hash>)
    ensures |r| == |nodes| / 2
  {
    seq(|nodes| / 2, i requires 0 <= i < |nodes| / 2 => h(nodes[2 * i], nodes[2 * i + 1]))
  }

  /** The layer `k` above. */
  function Level(h: Pair, nodes: seq<Hash>, k: nat): seq<Hash>
    decreases k
  {
    if k == 0 then nodes else Level(h, Parent(h, nodes), k - 1)
  }

  lemma {:induction false} LevelSize(h: Pair, nodes: seq<Hash>, m: nat, k: nat)
    requires |nodes| == m * Pow2(k)
    ensures |Level(h, nodes, k)| == m
    decreases k
  {
    if k > 0 {
      TwiceProduct(m, k);
      LevelSize(h, Parent(h, nodes), m, k - 1);
    }
  }

  lemma {:induction false} LevelUp(h: Pair, nodes: seq<Hash>, k: nat)
    ensures Level(h, nodes, k + 1) == Parent(h, Level(h, nodes, k))
    decreases k
  {
    if k > 0 {
      LevelUp(h, Parent(h, nodes), k - 1);
    }
  }

  /** The root of a tree with 2^k leaves. */
  function Root(h: Pair, nodes: seq<Hash>, k: nat): Hash
    requires |nodes| == Pow2(k)
  {
    LevelSize(h, nodes, 1, k);
    Level(h, nodes, k)[0]
  }

  /** The `i`-th run of `w` nodes. */
  function Group(nodes: seq<Hash>, i: nat, w: nat): (r: seq<Hash>)
    requires i * w + w <= |nodes|
    ensures |r| == w
  {
    nodes[i * w..i * w + w]
  }

  lemma GroupUp(h: Pair, nodes: seq<Hash>, i: nat, w: nat)
    requires i * w + w <= |nodes| / 2 && i * (2 * w) + 2 * w <= |nodes|
    ensures Parent(h, Group(nodes, i, 2 * w)) == Group(Parent(h, nodes), i, w)
  {
    Below(i, i + 1, w);
    var at := i * w;
    assert Group(nodes, i, 2 * w) == nodes[2 * at..2 * at + 2 * w];
    ParentOfSlice(h, nodes, at, w);
  }

  lemma ParentOfSlice(h: Pair, nodes: seq<Hash>, at: nat, w: nat)
    requires 2 * at + 2 * w <= |nodes|
    ensures Parent(h, nodes[2 * at..2 * at + 2 * w]) == Parent(h, nodes)[at..at + w]
  {
  }

  lemma Below(i: nat, m: nat, w: nat)
    requires i < m
    ensures i * w + w <= m * w && m * (2 * w) == 2 * (m * w) && i * (2 * w) == 2 * (i * w)
  {
    assert (i + 1) * w <= m * w;
  }

  /** A node is the root of the leaves below it. */
  lemma {:induction false} NodeIsRoot(h: Pair, nodes: seq<Hash>, m: nat, k: nat, i: nat, w: nat)
    requires w == Pow2(k) && |nodes| == m * w && i < m && i * w + w <= |nodes|
    ensures |Level(h, nodes, k)| == m
    ensures Level(h, nodes, k)[i] == Root(h, Group(nodes, i, w), k)
    decreases k
  {
    LevelSize(h, nodes, m, k);
    if k == 0 {
      assert Group(nodes, i, 1) == [nodes[i]];
    } else {
      var v := Pow2(k - 1);
      Below(i, m, v);
      NodeIsRoot(h, Parent(h, nodes), m, k - 1, i, v);
      GroupUp(h, nodes, i, v);
    }
  }

  // ---- Padding.

  function Pads(pad: Hash, n: nat): (r: seq<Hash>)
    ensures |r| == n
  {
    seq(n, _ => pad)
  }

  function Padded(nodes: seq<Hash>, width: nat, pad: Hash): (r: seq<Hash>)
    requires |nodes| <= width
    ensures |r| == width
  {
    nodes + Pads(pad, width - |nodes|)
  }

  /** The root of a subtree of pads alone. */
  function PadHash(h: Pair, k: nat): Hash { if k == 0 then ZERO else h(PadHash(h, k - 1), PadHash(h, k - 1)) }

  /** The nodes above `nodes` where what is missing at their end is a pad. */
  function HalfUp(h: Pair, nodes: seq<Hash>, pad: Hash): (r: seq<Hash>)
    ensures |r| == (|nodes| + 1) / 2
  {
    seq((|nodes| + 1) / 2, i requires 0 <= i < (|nodes| + 1) / 2 =>
      h(nodes[2 * i], if 2 * i + 1 < |nodes| then nodes[2 * i + 1] else pad))
  }

  /** Hashing the nodes there are, with a pad hashed alongside, is hashing the padded layer. */
  lemma PadsRise(h: Pair, nodes: seq<Hash>, width: nat, pad: Hash)
    requires |nodes| <= 2 * width
    ensures Parent(h, Padded(nodes, 2 * width, pad)) == Padded(HalfUp(h, nodes, pad), width, h(pad, pad))
  {
    var all, up := Padded(nodes, 2 * width, pad), HalfUp(h, nodes, pad);
    forall i | 0 <= i < width
      ensures Parent(h, all)[i] == Padded(up, width, h(pad, pad))[i]
    {
    }
  }

  /** The root of the least tree that holds the nodes and the width, padded. */
  function TreeRoot(h: Pair, nodes: seq<Hash>, width: nat, pad: Hash): Hash {
    var k := CeilLog(Max(|nodes|, width));
    Root(h, Padded(nodes, Pow2(k), pad), k)
  }

  /** MerkleRoot: the root, with only the nodes that are not pads kept, hashed in place. */
  method MerkleRoot(h: Pair, nodes: seq<Hash>, width: nat, pad: Hash) returns (root: Hash)
    ensures root == TreeRoot(h, nodes, width, pad)
  {
    var a := NextPow2(width);
    var b := NextPow2(|nodes|);
    var w := if a < b then b else a;
    ghost var k := CeilLog(Max(|nodes|, width));
    LargerRounds(width, |nodes|);
    root := RootInPlace(h, nodes, w, pad, k);
  }

  /** Rounding up the larger of two numbers gives the larger of them rounded up. */
  lemma LargerRounds(a: nat, b: nat)
    ensures Pow2(CeilLog(Max(b, a))) == Max(Pow2(CeilLog(b)), Pow2(CeilLog(a)))
  {
    var small, large := if a < b then a else b, Max(b, a);
    CeilLogIsLeast(small, CeilLog(large));
    Pow2Grows(CeilLog(small), CeilLog(large));
  }

  method RootInPlace(h: Pair, nodes: seq<Hash>, width: nat, pad: Hash, ghost k: nat) returns (root: Hash)
    requires width == Pow2(k) && |nodes| <= width
    ensures root == Root(h, Padded(nodes, width, pad), k)
  {
    var layer := CopyOf(nodes);
    var n, p, w := |nodes|, pad, width;
    while w > 1
      invariant 0 <= n <= layer.Length && LazyRoot(h, layer[..n], w, p) == LazyRoot(h, nodes, width, pad)
      invariant |nodes| > 0 <==> n > 0
      decreases w
    {
      n := HalfInPlace(h, layer, n, p);
      p, w := h(p, p), w / 2;
    }
    LazyRootIsRoot(h, nodes, width, pad, k);
    if |nodes| == 0 {
      root := p;
    } else {
      root := layer[0];
    }
  }

  method CopyOf(nodes: seq<Hash>) returns (a: array<Hash>)
    ensures fresh(a) && a.Length == |nodes| && a[..|nodes|] == nodes
  {
    a := new Hash[|nodes|](i requires 0 <= i < |nodes| => nodes[i]);
  }

  /** The root worked out with the pads left out of every layer. */
  function LazyRoot(h: Pair, nodes: seq<Hash>, w: nat, pad: Hash): Hash
    decreases w
  {
    if w <= 1 then (if nodes == [] then pad else nodes[0])
    else LazyRoot(h, HalfUp(h, nodes, pad), w / 2, h(pad, pad))
  }

  /** It is the root of the padded tree. */
  lemma {:induction false} LazyRootIsRoot(h: Pair, nodes: seq<Hash>, w: nat, pad: Hash, k: nat)
    requires w == Pow2(k) && |nodes| <= w
    ensures LazyRoot(h, nodes, w, pad) == Root(h, Padded(nodes, w, pad), k)
    decreases k
  {
    if k == 0 {
      assert Root(h, Padded(nodes, w, pad), 0) == Padded(nodes, 1, pad)[0];
    } else {
      Halves(k);
      LazyRootIsRoot(h, HalfUp(h, nodes, pad), w / 2, h(pad, pad), k - 1);
      RootRises(h, nodes, w, pad, k);
    }
  }

  lemma RootRises(h: Pair, nodes: seq<Hash>, w: nat, pad: Hash, k: nat)
    requires k > 0 && w == Pow2(k) && |nodes| <= w && w / 2 == Pow2(k - 1)
    ensures Root(h, Padded(nodes, w, pad), k) == Root(h, Padded(HalfUp(h, nodes, pad), w / 2, h(pad, pad)), k - 1)
  {
    var half := w / 2;
    PadsRise(h, nodes, half, pad);
    assert w == 2 * half;
  }

  /** One layer's pass of it, the layer above written over the one below. */
  method HalfInPlace(h: Pair, layer: array<Hash>, n: nat, pad: Hash) returns (m: nat)
    requires n <= layer.Length
    modifies layer
    ensures m == (n + 1) / 2 && layer[..m] == HalfUp(h, old(layer[..n]), pad)
  {
    m := (n + 1) / 2;
    ghost var before := layer[..n];
    for i := 0 to m
      invariant forall j :: 0 <= j < i ==> layer[j] == HalfUp(h, before, pad)[j]
      invariant forall j :: i <= j < n ==> layer[j] == before[j]
    {
      var r := pad;
      if 2 * i + 1 < n {
        r := layer[2 * i + 1];
      }
      layer[i] := h(layer[2 * i], r);
    }
  }

  // ---- A file's root from its piece layer.

  /** The nodes `k` layers above `nodes`, where pads are missing at their end. */
  function Rise(h: Pair, nodes: seq<Hash>, pad: Hash, k: nat): seq<Hash>
    decreases k
  {
    if k == 0 then nodes else Rise(h, HalfUp(h, nodes, pad), h(pad, pad), k - 1)
  }

  function Pad(h: Pair, pad: Hash, k: nat): Hash
    decreases k
  {
    if k == 0 then pad else Pad(h, h(pad, pad), k - 1)
  }

  lemma {:induction false} PadIsPadHash(h: Pair, j: nat, k: nat)
    ensures Pad(h, PadHash(h, j), k) == PadHash(h, j + k)
    decreases k
  {
    if k > 0 {
      PadIsPadHash(h, j + 1, k - 1);
    }
  }

  /** Padding and rising `k` layers is rising and padding with the pads of that layer. */
  lemma {:induction false} PaddedRises(h: Pair, nodes: seq<Hash>, width: nat, pad: Hash, k: nat)
    requires |nodes| <= width * Pow2(k)
    ensures |Rise(h, nodes, pad, k)| <= width
    ensures Level(h, Padded(nodes, width * Pow2(k), pad), k) == Padded(Rise(h, nodes, pad, k), width, Pad(h, pad, k))
    decreases k
  {
    if k > 0 {
      var half := width * Pow2(k - 1);
      TwiceProduct(width, k);
      PadsRise(h, nodes, half, pad);
      PaddedRises(h, HalfUp(h, nodes, pad), width, h(pad, pad), k - 1);
    }
  }

  /** A file's root from its leaves, padded with zeros, is its root from its piece layer padded with PadHash. */
  lemma LayerHasFileRoot(h: Pair, leaves: seq<Hash>, m: nat, k: nat)
    requires |leaves| <= Pow2(m) * Pow2(k)
    ensures Pow2(m + k) == Pow2(m) * Pow2(k) && |Rise(h, leaves, ZERO, k)| <= Pow2(m)
    ensures Root(h, Padded(leaves, Pow2(m + k), ZERO), m + k)
            == Root(h, Padded(Rise(h, leaves, ZERO, k), Pow2(m), PadHash(h, k)), m)
  {
    Pow2Adds(m, k);
    LayerIsLevel(h, leaves, Pow2(m), k);
    RootOfLevel(h, Padded(leaves, Pow2(m + k), ZERO), Padded(Rise(h, leaves, ZERO, k), Pow2(m), PadHash(h, k)), m, k);
  }

  lemma LayerIsLevel(h: Pair, leaves: seq<Hash>, width: nat, k: nat)
    requires |leaves| <= width * Pow2(k)
    ensures |Rise(h, leaves, ZERO, k)| <= width
    ensures Level(h, Padded(leaves, width * Pow2(k), ZERO), k) == Padded(Rise(h, leaves, ZERO, k), width, PadHash(h, k))
  {
    PaddedRises(h, leaves, width, ZERO, k);
    PadIsPadHash(h, 0, k);
  }

  lemma RootOfLevel(h: Pair, all: seq<Hash>, layer: seq<Hash>, m: nat, k: nat)
    requires |all| == Pow2(m + k) && |layer| == Pow2(m) && layer == Level(h, all, k)
    ensures Root(h, layer, m) == Root(h, all, m + k)
  {
    LevelLevel(h, all, k, m);
    assert k + m == m + k;
  }

  /** The hashes of a piece layer are the roots of the leaves of one piece each. */
  lemma LayerIsOfPieces(h: Pair, leaves: seq<Hash>, m: nat, k: nat, i: nat)
    requires |leaves| <= Pow2(m) * Pow2(k) && i < |Rise(h, leaves, ZERO, k)|
    ensures i * Pow2(k) + Pow2(k) <= Pow2(m) * Pow2(k)
    ensures Rise(h, leaves, ZERO, k)[i] == Root(h, Group(Padded(leaves, Pow2(m) * Pow2(k), ZERO), i, Pow2(k)), k)
  {
    PaddedRises(h, leaves, Pow2(m), ZERO, k);
    Below(i, Pow2(m), Pow2(k));
    NodeIsRoot(h, Padded(leaves, Pow2(m) * Pow2(k), ZERO), Pow2(m), k, i, Pow2(k));
  }

  // ---- Proofs.

  function Sibling(pos: nat): nat { if pos % 2 == 0 then pos + 1 else pos - 1 }

  function Step(h: Pair, cur: Hash, pos: nat, uncle: Hash): Hash {
    if pos % 2 == 0 then h(cur, uncle) else h(uncle, cur)
  }

  /** Going up from a node with the siblings given. */
  function Fold(h: Pair, cur: Hash, pos: nat, uncles: seq<Hash>): Hash
    decreases |uncles|
  {
    if uncles == [] then cur else Fold(h, Step(h, cur, pos, uncles[0]), pos / 2, uncles[1..])
  }

  /** The position `d` levels above `pos`. */
  function Above(pos: nat, d: nat): nat { if d == 0 then pos else Above(pos, d - 1) / 2 }

  lemma {:induction false} AboveFits(pos: nat, m: nat, d: nat)
    requires pos < Pow2(m) && d <= m
    ensures Above(pos, d) < Pow2(m - d)
  {
    if d > 0 {
      AboveFits(pos, m, d - 1);
      assert Pow2(m - (d - 1)) == 2 * Pow2(m - d);
    }
  }

  /** Each uncle is the sibling of the node it meets on the way up from `pos`. */
  ghost predicate AreUncles(h: Pair, nodes: seq<Hash>, pos: nat, uncles: seq<Hash>) {
    forall i :: 0 <= i < |uncles| ==> IsUncle(h, nodes, pos, i, uncles[i])
  }

  predicate IsUncle(h: Pair, nodes: seq<Hash>, pos: nat, i: nat, uncle: Hash) {
    Sibling(Above(pos, i)) < |Level(h, nodes, i)| && uncle == Level(h, nodes, i)[Sibling(Above(pos, i))]
  }

  lemma LevelFits(h: Pair, nodes: seq<Hash>, m: nat, d: nat)
    requires |nodes| == Pow2(m) && d <= m
    ensures |Level(h, nodes, d)| == Pow2(m - d)
  {
    Pow2Adds(m - d, d);
    LevelSize(h, nodes, Pow2(m - d), d);
  }

  /** Folding a node with its uncles gives the node above them. */
  lemma {:induction false} FoldReachesAncestor(h: Pair, nodes: seq<Hash>, m: nat, pos: nat, uncles: seq<Hash>)
    requires pos < |nodes| == Pow2(m) && |uncles| <= m && AreUncles(h, nodes, pos, uncles)
    ensures var d := |uncles|;
            Above(pos, d) < |Level(h, nodes, d)| && Fold(h, nodes[pos], pos, uncles) == Level(h, nodes, d)[Above(pos, d)]
    decreases |uncles|
  {
    if uncles != [] {
      var d := |uncles| - 1;
      FoldReachesAncestor(h, nodes, m, pos, uncles[..d]);
      assert IsUncle(h, nodes, pos, d, uncles[d]);
      LevelFits(h, nodes, m, d);
      LevelUp(h, nodes, d);
      SiblingsMeet(h, Level(h, nodes, d), Above(pos, d), Pow2(m - d - 1));
      FoldLast(h, nodes[pos], pos, uncles);
    }
  }

  lemma SiblingsMeet(h: Pair, nodes: seq<Hash>, pos: nat, half: nat)
    requires |nodes| == 2 * half && pos < |nodes|
    ensures Sibling(pos) < |nodes| && pos / 2 < half == |Parent(h, nodes)|
    ensures Step(h, nodes[pos], pos, nodes[Sibling(pos)]) == Parent(h, nodes)[pos / 2]
  {
    var i := pos / 2;
    assert pos == 2 * i || pos == 2 * i + 1;
  }

  lemma {:induction false} FoldLast(h: Pair, cur: Hash, pos: nat, uncles: seq<Hash>)
    requires uncles != []
    ensures var d := |uncles| - 1;
            Fold(h, cur, pos, uncles) == Step(h, Fold(h, cur, pos, uncles[..d]), Above(pos, d), uncles[d])
    decreases |uncles|
  {
    var d := |uncles| - 1;
    if d > 0 {
      FoldLast(h, Step(h, cur, pos, uncles[0]), pos / 2, uncles[1..]);
      assert uncles[1..][..d - 1] == uncles[..d][1..];
      AboveShift(pos, d - 1);
    }
  }

  lemma {:induction false} AboveShift(pos: nat, d: nat)
    ensures Above(pos / 2, d) == Above(pos, d + 1)
  {
    if d > 0 {
      AboveShift(pos, d - 1);
    }
  }

  lemma {:induction false} LevelLevel(h: Pair, nodes: seq<Hash>, j: nat, k: nat)
    ensures Level(h, Level(h, nodes, j), k) == Level(h, nodes, j + k)
    decreases j
  {
    if j > 0 {
      LevelLevel(h, Parent(h, nodes), j - 1, k);
    }
  }

  /** VerifyProof. */
  method VerifyProof(h: Pair, want: Hash, index: int, nodes: seq<Hash>, uncles: seq<Hash>) returns (ok: bool)
    ensures ok <==> |nodes| > 0 && PowerOfTwo(|nodes|) && index >= 0 && index % |nodes| == 0
                    && RootOf(h, nodes).Some? && Fold(h, RootOf(h, nodes).value, index / |nodes|, uncles) == want
  {
    var n := |nodes|;
    if n == 0 || !PowerOfTwo(n) || index < 0 || index % n != 0 {
      return false;
    }
    var cur := MerkleRoot(h, nodes, n, ZERO);
    PowerIsPow2(n);
    LeastIsCeilLog(n, Log2(n));
    assert Padded(nodes, n, ZERO) == nodes;
    assert cur == RootOf(h, nodes).value;
    var pos := index / n;
    ghost var start, from := cur, pos;
    for i := 0 to |uncles|
      invariant pos >= 0 && Fold(h, start, from, uncles) == Fold(h, cur, pos, uncles[i..])
    {
      cur := Step(h, cur, pos, uncles[i]);
      pos := pos / 2;
      assert uncles[i..][1..] == uncles[i + 1..];
    }
    return cur == want;
  }

  /** The root of a whole tree. */
  function RootOf(h: Pair, nodes: seq<Hash>): Option<Hash> {
    if |nodes| > 0 && PowerOfTwo(|nodes|) then PowerIsPow2(|nodes|); Some(Root(h, nodes, Log2(|nodes|))) else None
  }
}
