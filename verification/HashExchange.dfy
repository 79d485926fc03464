/** BEP 52's hash requests: asking for a file's piece layer in parts, answering such
    a request with proofs, and putting the answers together. */
module HashExchange {
  import opened Basics
  import opened Merkle
  import opened Powers

  const MAX_HASHES_PER_REQUEST := 512
  const MAX_HASHES_SERVED := 8192

  /** A hash request, its fields of 32 bits each. */
  datatype Request = Request(base: nat, index: nat, length: nat, proofLayers: nat)

  /** A file's piece layer as its tree holds it. */
  function Tree(layer: seq<Hash>, pad: Hash): (all: seq<Hash>)
    ensures |all| == Pow2(CeilLog(|layer|))
  {
    Padded(layer, Pow2(CeilLog(|layer|)), pad)
  }

  /** The requests this side answers. */
  predicate Legal(r: Request, level: nat, width: nat) {
    && r.base == level && 1 <= r.length <= MAX_HASHES_SERVED && PowerOfTwo(r.length)
    && r.index % r.length == 0 && r.index + r.length <= width
  }

  /** parentLayer. */
  method ParentLayer(h: Pair, nodes: array<Hash>) returns (up: array<Hash>)
    ensures fresh(up) && up[..] == Parent(h, nodes[..])
  {
    var n := nodes.Length / 2;
    up := new Hash[n](_ => ZERO);
    for i := 0 to n
      invariant forall j :: 0 <= j < i ==> up[j] == h(nodes[2 * j], nodes[2 * j + 1])
    {
      up[i] := h(nodes[2 * i], nodes[2 * i + 1]);
    }
  }

  /** The layer padded to its tree's width. */
  method PadLayer(layer: seq<Hash>, pad: Hash, width: nat) returns (nodes: array<Hash>)
    requires |layer| <= width
    ensures fresh(nodes) && nodes[..] == Padded(layer, width, pad)
  {
    nodes := new Hash[width](_ => ZERO);
    for i := 0 to width
      invariant nodes[..i] == Padded(layer, width, pad)[..i]
    {
      nodes[i] := if i < |layer| then layer[i] else pad;
    }
  }

  lemma AddUncle(h: Pair, base: seq<Hash>, pos: nat, uncles: seq<Hash>, uncle: Hash)
    requires AreUncles(h, base, pos, uncles) && IsUncle(h, base, pos, |uncles|, uncle)
    ensures AreUncles(h, base, pos, uncles + [uncle])
  {
    var more := uncles + [uncle];
    forall i | 0 <= i < |more|
      ensures IsUncle(h, base, pos, i, more[i])
    {
      assert i < |uncles| ==> more[i] == uncles[i];
    }
  }

  /** One step of the way up. */
  lemma UncleUp(h: Pair, base: seq<Hash>, pos: nat, d: nat, cur: seq<Hash>, p: nat, half: nat)
    requires cur == Level(h, base, d) && |cur| == 2 * half && p == Above(pos, d) < |cur|
    ensures Sibling(p) < |cur| && IsUncle(h, base, pos, d, cur[Sibling(p)])
    ensures Parent(h, cur) == Level(h, base, d + 1) && p / 2 == Above(pos, d + 1) < |Parent(h, cur)| == half
  {
    SiblingsMeet(h, cur, p, half);
    LevelUp(h, base, d);
  }

  /** Where the way up stands: `cur` is the layer reached, of 2^left nodes, and `p` the position in it. */
  ghost predicate Climbing(h: Pair, base: seq<Hash>, left: nat, pos: nat, uncles: seq<Hash>, cur: seq<Hash>, p: nat) {
    && cur == Level(h, base, |uncles|) && |cur| == Pow2(left)
    && p == Above(pos, |uncles|) && p < |cur| && AreUncles(h, base, pos, uncles)
  }

  lemma ClimbStep(h: Pair, base: seq<Hash>, left: nat, pos: nat, uncles: seq<Hash>, cur: seq<Hash>, p: nat)
    requires Climbing(h, base, left, pos, uncles, cur, p) && left > 0
    ensures Sibling(p) < |cur| && Climbing(h, base, left - 1, pos, uncles + [cur[Sibling(p)]], Parent(h, cur), p / 2)
  {
    var more := ClimbUncle(h, base, left, pos, uncles, cur, p);
    assert |more| == |uncles| + 1;
    UncleUp(h, base, pos, |uncles|, cur, p, Pow2(left - 1));
  }

  lemma ClimbUncle(h: Pair, base: seq<Hash>, left: nat, pos: nat, uncles: seq<Hash>, cur: seq<Hash>, p: nat)
    returns (more: seq<Hash>)
    requires Climbing(h, base, left, pos, uncles, cur, p) && left > 0
    ensures Sibling(p) < |cur| && more == uncles + [cur[Sibling(p)]] && AreUncles(h, base, pos, more)
  {
    UncleUp(h, base, pos, |uncles|, cur, p, Pow2(left - 1));
    AddUncle(h, base, pos, uncles, cur[Sibling(p)]);
    more := uncles + [cur[Sibling(p)]];
  }

  /** The uncles of position `pos` from the layer `nodes`, `level` above the base, up to `proofLayers`. */
  method Proof(h: Pair, nodes: array<Hash>, ghost m: nat, pos: nat, level: nat, proofLayers: nat) returns (uncles: seq<Hash>)
    requires pos < nodes.Length == Pow2(m)
    ensures |uncles| == Min(m, Max(proofLayers, level) - level) && AreUncles(h, nodes[..], pos, uncles)
  {
    var cur, p, l := nodes, pos, level;
    ghost var left := m;
    uncles := [];
    assert Climbing(h, nodes[..], left, pos, uncles, cur[..], p);
    while l < proofLayers && cur.Length > 1
      invariant p >= 0 && left >= 0 && Climbing(h, nodes[..], left, pos, uncles, cur[..], p)
      invariant left + |uncles| == m && l == level + |uncles| && (l <= proofLayers || l == level)
      decreases proofLayers - l
    {
      ClimbStep(h, nodes[..], left, pos, uncles, cur[..], p);
      uncles := uncles + [cur[Sibling(p)]];
      cur := ParentLayer(h, cur);
      p, l, left := p / 2, l + 1, left - 1;
    }
  }

  // ---- Answering.

  /** What is asked for in a tree of 2^m nodes, `all`: the `pos`-th run of 2^k of them, and the uncles that
      prove it up to the layer asked for, or to the root. */
  ghost predicate Answers(h: Pair, all: seq<Hash>, m: nat, k: nat, pos: nat, proofLayers: nat, data: seq<Hash>) {
    var w := Pow2(k);
    && k <= m && |data| == w + Min(m - k, Max(proofLayers, k) - k)
    && pos * w + w <= |all| && data[..w] == Group(all, pos, w)
    && AreUncles(h, Level(h, all, k), pos, data[w..])
  }

  /** Where a legal request lies in the tree. */
  lemma Located(r: Request, level: nat, m: nat, k: nat, pos: nat)
    requires Legal(r, level, Pow2(m)) && k == Log2(r.length) && pos == r.index / r.length
    ensures k <= m && r.length == Pow2(k) && pos * r.length == r.index && pos * Pow2(k) + Pow2(k) <= Pow2(m)
    ensures pos < Pow2(m - k) && Pow2(m) == Pow2(m - k) * Pow2(k)
  {
    Pow2IsPower(m);
    PowerIsPow2(r.length);
    PowersDivide(r.length, Pow2(m));
    Exact(r.index, r.length);
    Fewer(pos, Pow2(m - k), r.length);
  }

  lemma Exact(n: nat, w: nat)
    requires w > 0 && n % w == 0
    ensures n / w * w == n
  {
  }

  lemma Fewer(a: nat, b: nat, w: nat)
    requires w > 0 && a * w + w <= b * w
    ensures a < b
  {
    Multiples(b, a, w);
  }

  lemma Multiples(a: nat, b: nat, w: nat)
    ensures a <= b ==> a * w <= b * w
  {
  }

  /** What makes a request one that is answered: for the layer's own level, of a power of two of hashes, not too many,
      aligned, and within the tree. */
  lemma LegalExactly(r: Request, level: nat, width: nat)
    ensures Legal(r, level, width) <==>
              && r.base == level && 1 <= r.length <= MAX_HASHES_SERVED && (exists k: nat :: r.length == Pow2(k))
              && r.index % r.length == 0 && r.index + r.length <= width
  {
    if r.length >= 1 && PowerOfTwo(r.length) {
      PowerIsPow2(r.length);
    }
    if k: nat :| r.length == Pow2(k) {
      Pow2IsPower(k);
    }
  }

  /** onHashRequestLocked, for a layer this side may know. */
  method Serve(h: Pair, level: nat, pad: Hash, known: Option<seq<Hash>>, r: Request) returns (answer: Option<seq<Hash>>)
    ensures answer.Some? <==> known.Some? && Legal(r, level, Pow2(CeilLog(|known.value|)))
    ensures answer.Some? <==> && known.Some? && r.base == level && 1 <= r.length <= MAX_HASHES_SERVED
                              && (exists k: nat :: r.length == Pow2(k)) && r.index % r.length == 0
                              && r.index + r.length <= Pow2(CeilLog(|known.value|))
    ensures answer.Some? ==>
              Answers(h, Tree(known.value, pad), CeilLog(|known.value|), Log2(r.length), r.index / r.length, r.proofLayers,
                      answer.value)
  {
    if known.None? {
      return None;
    }
    var n := |known.value|;
    ghost var m := CeilLog(n);
    var width := NextPow2(n);
    LegalExactly(r, level, width);
    if !Legal(r, level, width) {
      return None;
    }
    var k, pos := Log2(r.length), r.index / r.length;
    Located(r, level, m, k, pos);
    var nodes := PadLayer(known.value, pad, width);
    var data := Answer(h, nodes, m, r.index, r.length, k, pos, r.proofLayers);
    return Some(data);
  }

  /** The hashes asked for, and the uncles from the layer of their root up. */
  method Answer(h: Pair, nodes: array<Hash>, ghost m: nat, index: nat, length: nat, k: nat, pos: nat, proofLayers: nat)
    returns (data: seq<Hash>)
    requires nodes.Length == Pow2(m) && k <= m && length == Pow2(k) && index == pos * length
    requires index + length <= nodes.Length
    requires pos < Pow2(m - k)
    ensures Answers(h, nodes[..], m, k, pos, proofLayers, data)
  {
    var all := nodes[..];
    var hashes := all[index..index + length];
    var uncles := UnclesOf(h, nodes, m, k, pos, proofLayers);
    data := hashes + uncles;
    AnswerIsWhole(h, all, m, k, pos, length, proofLayers, hashes, uncles);
  }

  /** The uncles of the `pos`-th run of 2^k nodes. */
  method UnclesOf(h: Pair, nodes: array<Hash>, ghost m: nat, k: nat, pos: nat, proofLayers: nat) returns (uncles: seq<Hash>)
    requires nodes.Length == Pow2(m) && k <= m && pos < Pow2(m - k)
    ensures |uncles| == Min(m - k, Max(proofLayers, k) - k) && AreUncles(h, Level(h, nodes[..], k), pos, uncles)
  {
    var up := Climb(h, nodes, k);
    LevelFits(h, nodes[..], m, k);
    uncles := Proof(h, up, m - k, pos, k, proofLayers);
  }

  lemma AnswerIsWhole(h: Pair, all: seq<Hash>, m: nat, k: nat, pos: nat, w: nat, proofLayers: nat, hashes: seq<Hash>,
                      uncles: seq<Hash>)
    requires k <= m && w == Pow2(k) && pos * w + w <= |all| && hashes == Group(all, pos, w)
    requires |uncles| == Min(m - k, Max(proofLayers, k) - k) && AreUncles(h, Level(h, all, k), pos, uncles)
    ensures Answers(h, all, m, k, pos, proofLayers, hashes + uncles)
  {
    Split(hashes, uncles, w);
  }

  lemma Split(hashes: seq<Hash>, uncles: seq<Hash>, w: nat)
    requires |hashes| == w
    ensures (hashes + uncles)[..w] == hashes && (hashes + uncles)[w..] == uncles
  {
  }

  method Climb(h: Pair, nodes: array<Hash>, k: nat) returns (up: array<Hash>)
    ensures up[..] == Level(h, nodes[..], k)
  {
    up := nodes;
    for i := 0 to k
      invariant up[..] == Level(h, nodes[..], i)
    {
      LevelUp(h, nodes[..], i);
      up := ParentLayer(h, up);
    }
  }

  /** Folding the hashes served with the uncles served gives the node above them all, which is the tree's
      root if the proof goes that far. */
  lemma ServedProves(h: Pair, all: seq<Hash>, m: nat, k: nat, pos: nat, proofLayers: nat, data: seq<Hash>, d: nat)
    requires |all| == Pow2(m) && k <= m && pos < Pow2(m - k) && Answers(h, all, m, k, pos, proofLayers, data)
    requires d == |data| - Pow2(k)
    ensures k + d <= m && IsNode(h, all, k + d, Above(pos, d), Proven(h, k, pos, data))
    ensures proofLayers >= m ==> Proven(h, k, pos, data) == Root(h, all, m)
  {
    assert k + d <= m && (proofLayers >= m ==> k + d == m);
    AnswerReaches(h, all, m, k, pos, data[..Pow2(k)], data[Pow2(k)..], d);
  }

  lemma AnswerReaches(h: Pair, all: seq<Hash>, m: nat, k: nat, pos: nat, hashes: seq<Hash>, uncles: seq<Hash>, d: nat)
    requires |all| == Pow2(m) && k + d <= m && pos < Pow2(m - k) && pos * Pow2(k) + Pow2(k) <= |all|
    requires hashes == Group(all, pos, Pow2(k)) && |uncles| == d && AreUncles(h, Level(h, all, k), pos, uncles)
    ensures IsNode(h, all, k + d, Above(pos, d), Fold(h, Root(h, hashes, k), pos, uncles))
    ensures k + d == m ==> Fold(h, Root(h, hashes, k), pos, uncles) == Root(h, all, m)
  {
    AnswerFolds(h, all, m, k, pos, hashes, uncles);
    Reached(h, all, m, k, d, Above(pos, d), Fold(h, Root(h, hashes, k), pos, uncles));
  }

  lemma Reached(h: Pair, all: seq<Hash>, m: nat, k: nat, d: nat, pos: nat, node: Hash)
    requires |all| == Pow2(m) && k + d <= m && IsNode(h, Level(h, all, k), d, pos, node)
    ensures IsNode(h, all, k + d, pos, node) && (k + d == m ==> node == Root(h, all, m))
  {
    LevelLevel(h, all, k, d);
    LevelFits(h, all, m, k + d);
  }

  lemma AnswerFolds(h: Pair, all: seq<Hash>, m: nat, k: nat, pos: nat, hashes: seq<Hash>, uncles: seq<Hash>)
    requires |all| == Pow2(m) && k <= m && pos < Pow2(m - k) && pos * Pow2(k) + Pow2(k) <= |all|
    requires hashes == Group(all, pos, Pow2(k)) && |uncles| <= m - k && AreUncles(h, Level(h, all, k), pos, uncles)
    ensures var d := |uncles|; IsNode(h, Level(h, all, k), d, Above(pos, d), Fold(h, Root(h, hashes, k), pos, uncles))
  {
    HashesFold(h, all, m, k, pos, hashes);
    FoldReachesAncestor(h, Level(h, all, k), m - k, pos, uncles);
  }

  /** What the hashes and uncles of an answer fold to. */
  function Proven(h: Pair, k: nat, pos: nat, data: seq<Hash>): Hash
    requires |data| >= Pow2(k)
  {
    Fold(h, Root(h, data[..Pow2(k)], k), pos, data[Pow2(k)..])
  }

  predicate IsNode(h: Pair, nodes: seq<Hash>, level: nat, pos: nat, node: Hash) {
    pos < |Level(h, nodes, level)| && node == Level(h, nodes, level)[pos]
  }

  /** The hashes served are the leaves of the node their proof starts at. */
  lemma HashesFold(h: Pair, all: seq<Hash>, m: nat, k: nat, pos: nat, hashes: seq<Hash>)
    requires |all| == Pow2(m) && k <= m && pos < Pow2(m - k) && pos * Pow2(k) + Pow2(k) <= |all|
    requires hashes == Group(all, pos, Pow2(k))
    ensures pos < |Level(h, all, k)| == Pow2(m - k) && Root(h, hashes, k) == Level(h, all, k)[pos]
  {
    Pow2Adds(m - k, k);
    NodeIsRoot(h, all, Pow2(m - k), k, pos, Pow2(k));
  }

  lemma RootOfWhole(h: Pair, hashes: seq<Hash>, k: nat)
    requires |hashes| == Pow2(k)
    ensures RootOf(h, hashes) == Some(Root(h, hashes, k))
  {
    Pow2IsPower(k);
  }

  lemma RootOfTree(h: Pair, layer: seq<Hash>, pad: Hash)
    ensures TreeRoot(h, layer, |layer|, pad) == Root(h, Tree(layer, pad), CeilLog(|layer|))
  {
    assert Max(|layer|, |layer|) == |layer|;
  }

  /** What is served with a proof as deep as the tree is what VerifyProof accepts for the layer's root. */
  lemma ServedVerifies(h: Pair, layer: seq<Hash>, pad: Hash, m: nat, k: nat, pos: nat, proofLayers: nat, data: seq<Hash>)
    requires m == CeilLog(|layer|) && k <= m <= proofLayers && pos < Pow2(m - k)
    requires Answers(h, Tree(layer, pad), m, k, pos, proofLayers, data)
    ensures RootOf(h, data[..Pow2(k)]).Some?
    ensures Fold(h, RootOf(h, data[..Pow2(k)]).value, pos, data[Pow2(k)..]) == TreeRoot(h, layer, |layer|, pad)
  {
    RootOfWhole(h, data[..Pow2(k)], k);
    RootOfTree(h, layer, pad);
    ServedProves(h, Tree(layer, pad), m, k, pos, proofLayers, data, |data| - Pow2(k));
  }

  // ---- Asking, and putting the answers together.

  function Chunks(n: nat): nat { (n + MAX_HASHES_PER_REQUEST - 1) / MAX_HASHES_PER_REQUEST }

  /** The pieces root a layer hashes to. */
  function LayerRoot(h: Pair, layer: seq<Hash>, pad: Hash): Hash { TreeRoot(h, layer, |layer|, pad) }

  lemma Pow512()
    ensures Pow2(9) == 512
  {
    assert Pow2(3) == 8;
    assert Pow2(6) == 64;
  }

  lemma Power512()
    ensures PowerOfTwo(512) && Log2(512) == 9
  {
    Pow512();
    Pow2IsPower(9);
  }

  /** The least whole subtree, of two hashes or more, that `left` of them fit in. */
  ghost predicate SizedFor(left: nat, length: nat) {
    && left <= length && 2 <= length <= MAX_HASHES_PER_REQUEST && PowerOfTwo(length)
    && forall k: nat :: k > 0 && Pow2(k) >= left ==> length <= Pow2(k)
  }

  /** How many hashes a request asks for. */
  method RequestLength(left: nat) returns (length: nat)
    requires left <= MAX_HASHES_PER_REQUEST
    ensures SizedFor(left, length)
  {
    var p := NextPow2(left);
    length := Max(2, p);
    Pow512();
    Pow2IsPower(CeilLog(left));
    Pow2IsPower(1);
    forall k: nat | k > 0 && Pow2(k) >= left
      ensures length <= Pow2(k)
    {
      Pow2Grows(1, k);
    }
  }

  /** The request is for what is left of part `c` of the layer. */
  ghost predicate AsksFor(n: nat, c: nat, length: nat) {
    && c * MAX_HASHES_PER_REQUEST < n
    && SizedFor(Min(MAX_HASHES_PER_REQUEST, n - c * MAX_HASHES_PER_REQUEST), length)
  }

  /** Every request this side makes is one it would answer. */
  lemma RequestsAreLegal(n: nat, c: nat, length: nat, level: nat, proofLayers: nat)
    requires n >= 2 && AsksFor(n, c, length)
    ensures Legal(Request(level, c * MAX_HASHES_PER_REQUEST, length, proofLayers), level, Pow2(CeilLog(n)))
  {
    if n <= MAX_HASHES_PER_REQUEST {
      assert c == 0;
      assert length <= Pow2(CeilLog(n));
    } else {
      Aligned(c, length);
      Inside(n, CeilLog(n), c);
    }
  }

  lemma Inside(n: nat, m: nat, c: nat)
    requires 512 < n <= Pow2(m) && c * 512 < n
    ensures c * 512 + 512 <= Pow2(m)
  {
    Power512();
    Pow2IsPower(m);
    PowersDivide(512, Pow2(m));
    Strict(c, Pow2(m - 9), 512);
  }

  lemma Aligned(c: nat, length: nat)
    requires 0 < length <= 512 && PowerOfTwo(length)
    ensures c * 512 % length == 0
  {
    Power512();
    PowersDivide(length, 512);
    Regroup(c, Pow2(9 - Log2(length)), length);
    Multiple(c * Pow2(9 - Log2(length)), length);
  }

  lemma Regroup(a: nat, b: nat, w: nat)
    ensures a * (b * w) == a * b * w
  {
  }

  lemma Multiple(a: nat, w: nat)
    requires w > 0
    ensures a * w % w == 0
  {
    var n := a * w;
    var x := n / w - a;
    MulGrows(x, w);
    assert n == n / w * w + n % w;
    assert x * w == n / w * w - n;
  }

  lemma Strict(a: nat, b: nat, w: nat)
    requires w > 0 && a * w < b * w
    ensures a * w + w <= b * w
  {
    Multiples(b, a, w);
    Multiples(a + 1, b, w);
  }
}
