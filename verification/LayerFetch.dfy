/** A file's piece layer being put together from the answers of peers. */
module LayerFetch {
  import opened Basics
  import opened Merkle
  import opened Powers
  import opened HashExchange

  /** The parts an index of 32 bits can name. */
  const PARTS := 0x80_0000

  /** The requests are with the peers picked for their parts, the last asked for an index counting. */
  ghost function AskedFor(asked: map<nat, nat>, requests: seq<Request>, parts: seq<nat>, peerFor: nat -> nat): map<nat, nat>
    requires |parts| == |requests|
  {
    if requests == [] then asked
    else
      var k := |requests| - 1;
      AskedFor(asked, requests[..k], parts[..k], peerFor)[requests[k].index := peerFor(parts[k])]
  }

  lemma AskedForMore(asked: map<nat, nat>, requests: seq<Request>, parts: seq<nat>, peerFor: nat -> nat, r: Request, c: nat)
    requires |parts| == |requests|
    ensures AskedFor(asked, requests + [r], parts + [c], peerFor)
            == AskedFor(asked, requests, parts, peerFor)[r.index := peerFor(c)]
  {
    assert (requests + [r])[..|requests|] == requests && (parts + [c])[..|parts|] == parts;
  }

  /** The hashes of an answer are in their place, and the rest as they were. */
  predicate Placed(was: seq<Hash>, hashes: seq<Hash>, index: nat, data: seq<Hash>) {
    |hashes| == |was|
    && forall i :: 0 <= i < |hashes| ==> hashes[i] == if index <= i < index + |data| then data[i - index] else was[i]
  }

  class Fetch {
    const h: Pair
    const pad: Hash
    const root: Hash
    const n: nat
    const hashes: array<Hash>
    const got: array<bool>
    /** The peers asked and yet to answer, by the index they were asked for. */
    var asked: map<nat, nat>
    /** The layer, once it is all there and hashes to the root. */
    var stored: Option<seq<Hash>>

    constructor (h: Pair, pad: Hash, root: Hash, n: nat)
      ensures Valid() && fresh(hashes) && fresh(got) && asked == map[] && stored == None
      ensures this.h == h && this.pad == pad && this.root == root && this.n == n
      ensures forall c :: 0 <= c < got.Length ==> !got[c]
    {
      this.h, this.pad, this.root, this.n := h, pad, root, n;
      hashes := new Hash[n](_ => ZERO);
      got := new bool[Chunks(n)](_ => false);
      asked, stored := map[], None;
    }

    /** What is stored has the root asked for. */
    ghost predicate Stored()
      reads this
    {
      stored.Some? ==> |stored.value| == n && LayerRoot(h, stored.value, pad) == root
    }

    ghost predicate Valid()
      reads this, hashes, got
    {
      && hashes.Length == n && got.Length == Chunks(n) && Stored()
      && forall i :: i in asked ==> i % MAX_HASHES_PER_REQUEST == 0 && i < n
    }

    /** The request for part `c` of the layer, which goes to `peer`. */
    method Ask(c: nat, level: nat, peer: nat) returns (r: Request)
      requires Valid() && c < got.Length
      modifies `asked
      ensures Valid() && asked == old(asked)[r.index := peer]
      ensures Requests(c, level, r)
    {
      var idx := c * MAX_HASHES_PER_REQUEST;
      IndexFits(n, c);
      var left := Min(MAX_HASHES_PER_REQUEST, n - idx);
      var length := RequestLength(left);
      r := Request(level, idx % TWO_TO_32, length, 0);
      asked := asked[r.index := peer];
    }

    /** The part is missing, and due to be asked for. */
    predicate Wants(c: nat, due: set<nat>)
      reads this`stored, got
      requires c < got.Length
    {
      stored.None? && !got[c] && c in due
    }

    /** The request is one for part `c`. */
    ghost predicate Requests(c: nat, level: nat, r: Request) {
      && r.base == level && r.proofLayers == 0 && r.index == c * MAX_HASHES_PER_REQUEST % TWO_TO_32
      && AsksFor(n, c, r.length)
    }

    /** requestHashesLocked's loop: the parts that are missing and `due` to be asked for, each of the peer picked for
        it. */
    method AskAll(level: nat, due: set<nat>, peerFor: nat -> nat)
      returns (requests: seq<Request>, ghost parts: seq<nat>)
      requires Valid()
      modifies `asked
      ensures Valid() && |parts| == |requests| && asked == AskedFor(old(asked), requests, parts, peerFor)
      ensures forall c :: c in parts <==> 0 <= c < got.Length && Wants(c, due)
      ensures forall k :: 0 <= k < |parts| ==> Requests(parts[k], level, requests[k])
      ensures n >= 2 ==> forall r :: r in requests ==> Legal(r, level, Pow2(CeilLog(n)))
      ensures stored.Some? ==> requests == []
    {
      requests, parts := [], [];
      if stored.Some? {
        return;
      }
      for c := 0 to got.Length
        invariant Valid() && |parts| == |requests| && asked == AskedFor(old(asked), requests, parts, peerFor)
        invariant forall d :: d in parts <==> 0 <= d < c && Wants(d, due)
        invariant forall k :: 0 <= k < |parts| ==> Requests(parts[k], level, requests[k])
        invariant n >= 2 ==> forall r :: r in requests ==> Legal(r, level, Pow2(CeilLog(n)))
      {
        if !got[c] && c in due {
          var r := Ask(c, level, peerFor(c));
          if n >= 2 {
            AskedIsLegal(n, c, r, level);
          }
          AskedForMore(old(asked), requests, parts, peerFor, r, c);
          requests, parts := requests + [r], parts + [c];
        }
      }
    }

    /** The hashes of an answer go where they belong, as far as the layer goes. */
    method Fill(index: nat, data: seq<Hash>)
      requires hashes.Length == n
      modifies hashes
      ensures Placed(old(hashes[..]), hashes[..], index, data)
    {
      for k := 0 to |data|
        invariant forall i :: 0 <= i < n ==>
                    hashes[i] == if index <= i < index + k then data[i - index] else old(hashes[i])
      {
        if index + k < n {
          hashes[index + k] := data[k];
        }
      }
    }

    method AllGot() returns (all: bool)
      ensures all <==> forall c :: 0 <= c < got.Length ==> got[c]
    {
      for c := 0 to got.Length
        invariant forall d :: 0 <= d < c ==> got[d]
      {
        if !got[c] {
          return false;
        }
      }
      return true;
    }

    /** The answer is one to a request of this side's, and long enough. */
    ghost predicate Takes(index: nat, length: nat, data: seq<Hash>, sender: nat)
      reads this
    {
      index in asked && asked[index] == sender && stored.None? && length <= |data|
    }

    /** Whether the answer for `index` leaves no part missing. */
    ghost predicate Completes(index: nat)
      reads this, got
    {
      forall c :: 0 <= c < got.Length ==> got[c] || c == index / MAX_HASHES_PER_REQUEST
    }

    /** onHashesLocked. */
    method OnHashes(index: nat, length: nat, data: seq<Hash>, sender: nat)
      requires Valid()
      modifies `asked, `stored, hashes, got
      ensures Valid()
      ensures asked == if index in old(asked) && old(asked)[index] == sender then old(asked) - {index} else old(asked)
      ensures !old(Takes(index, length, data, sender)) ==>
                stored == old(stored) && hashes[..] == old(hashes[..]) && got[..] == old(got[..])
      ensures old(Takes(index, length, data, sender)) ==>
                Placed(old(hashes[..]), hashes[..], index, data[..length])
      ensures old(Takes(index, length, data, sender)) && !old(Completes(index)) ==>
                stored == None && index / MAX_HASHES_PER_REQUEST < got.Length
                && got[..] == old(got[..])[index / MAX_HASHES_PER_REQUEST := true]
      ensures old(Takes(index, length, data, sender)) && old(Completes(index)) ==>
                Judged()
    {
      if index !in asked || asked[index] != sender {
        return;
      }
      asked := asked - {index};
      if stored.Some? || length > |data| || index % MAX_HASHES_PER_REQUEST != 0 {
        return;
      }
      Fill(index, data[..length]);
      got[index / MAX_HASHES_PER_REQUEST] := true;
      var all := AllGot();
      assert forall c :: 0 <= c < got.Length ==> got[c] == (old(got[c]) || c == index / MAX_HASHES_PER_REQUEST);
      assert all == old(Completes(index));
      if !all {
        return;
      }
      Judge();
    }

    /** The whole layer was kept if it hashes to the root, and is to be asked for again otherwise. */
    ghost predicate Judged()
      reads this, hashes, got
    {
      if LayerRoot(h, hashes[..], pad) == root then stored == Some(hashes[..])
      else stored == None && forall c :: 0 <= c < got.Length ==> !got[c]
    }

    method Judge()
      requires Valid() && stored == None
      modifies `stored, got
      ensures Valid() && Judged()
    {
      var layer := hashes[..];
      var r := MerkleRoot(h, layer, n, pad);
      if r == root {
        stored := Some(layer);
      } else {
        for c := 0 to got.Length
          invariant stored == None && forall d :: 0 <= d < c ==> !got[d]
        {
          got[c] := false;
        }
      }
    }
  }

  lemma IndexFits(n: nat, c: nat)
    requires c < Chunks(n)
    ensures c * MAX_HASHES_PER_REQUEST < n
    ensures c * MAX_HASHES_PER_REQUEST % TWO_TO_32 % MAX_HASHES_PER_REQUEST == 0
    ensures c * MAX_HASHES_PER_REQUEST % TWO_TO_32 < n
  {
  }

  /** An index of 32 bits is that of a part, the one asked for unless the layer has more than 2^32 hashes. */
  lemma Wrapped(n: nat, c: nat)
    requires c * MAX_HASHES_PER_REQUEST < n
    ensures var at := c % PARTS;
            && at <= c && c * MAX_HASHES_PER_REQUEST % TWO_TO_32 == at * MAX_HASHES_PER_REQUEST
            && (n <= TWO_TO_32 ==> at == c)
  {
    var q, at := c / PARTS, c % PARTS;
    assert c == q * PARTS + at;
    assert c * MAX_HASHES_PER_REQUEST == q * TWO_TO_32 + at * MAX_HASHES_PER_REQUEST;
    assert 0 <= at * MAX_HASHES_PER_REQUEST < TWO_TO_32;
  }

  lemma AskedIsLegal(n: nat, c: nat, r: Request, level: nat)
    requires n >= 2 && c < Chunks(n) && AsksFor(n, c, r.length)
    requires r.base == level && r.index == c * MAX_HASHES_PER_REQUEST % TWO_TO_32
    ensures Legal(r, level, Pow2(CeilLog(n)))
  {
    Wrapped(n, c);
    RequestsAreLegal(n, c, r.length, level, r.proofLayers);
    Aligned(c % PARTS, r.length);
  }

  /** The parts there are of a layer are right. */
  predicate Agrees(got: seq<bool>, hashes: seq<Hash>, layer: seq<Hash>) {
    && |hashes| == |layer| && |got| == Chunks(|layer|)
    && forall i :: 0 <= i < |layer| && got[PartAt(|layer|, i)] ==> hashes[i] == layer[i]
  }

  function PartAt(n: nat, i: nat): (c: nat)
    requires i < n
    ensures c < Chunks(n) && c * MAX_HASHES_PER_REQUEST <= i < c * MAX_HASHES_PER_REQUEST + MAX_HASHES_PER_REQUEST
  {
    i / MAX_HASHES_PER_REQUEST
  }

  /** `data` is the hashes of the layer from `index` on, as far as it goes. */
  ghost predicate PartOf(layer: seq<Hash>, index: nat, data: seq<Hash>) {
    forall i :: index <= i < index + |data| && i < |layer| ==> data[i - index] == layer[i]
  }

  /** The answer to a request without proofs is that part of the layer. */
  lemma AnswerIsPart(h: Pair, layer: seq<Hash>, pad: Hash, m: nat, k: nat, pos: nat, data: seq<Hash>)
    requires |layer| <= Pow2(m) && Answers(h, Padded(layer, Pow2(m), pad), m, k, pos, 0, data)
    ensures |data| == Pow2(k) && PartOf(layer, pos * Pow2(k), data)
  {
    assert data == data[..Pow2(k)];
    GroupIsPart(layer, Pow2(m), pad, pos, Pow2(k));
  }

  lemma GroupIsPart(layer: seq<Hash>, width: nat, pad: Hash, pos: nat, w: nat)
    requires |layer| <= width && pos * w + w <= width
    ensures PartOf(layer, pos * w, Group(Padded(layer, width, pad), pos, w))
  {
  }

  /** Which run of its length the request is for. */
  function Position(r: Request): nat
    requires r.length > 0
  {
    r.index / r.length
  }

  lemma ServedIsPart(h: Pair, layer: seq<Hash>, pad: Hash, level: nat, r: Request, m: nat, k: nat, pos: nat,
                     data: seq<Hash>)
    requires |layer| <= Pow2(m) && Legal(r, level, Pow2(m)) && k == Log2(r.length) && pos == r.index / r.length
    requires Answers(h, Padded(layer, Pow2(m), pad), m, k, pos, 0, data)
    ensures |data| == r.length && PartOf(layer, r.index, data)
  {
    Located(r, level, m, k, pos);
    AnswerIsPart(h, layer, pad, m, k, pos, data);
  }

  /** One part asked of a peer that has the layer. */
  method Fetched(f: Fetch, layer: seq<Hash>, c: nat, level: nat, peer: nat) returns (r: Request, data: seq<Hash>)
    requires f.Valid() && c < f.got.Length && f.n == |layer| && 2 <= |layer|
    modifies f`asked
    ensures f.Valid() && r.index in f.asked && f.asked[r.index] == peer
    ensures r.index == c * MAX_HASHES_PER_REQUEST % TWO_TO_32 && AsksFor(f.n, c, r.length)
    ensures |data| == r.length && PartOf(layer, r.index, data)
  {
    r := f.Ask(c, level, peer);
    AskedIsLegal(f.n, c, r, level);
    var answer := Serve(f.h, level, f.pad, Some(layer), r);
    data := answer.value;
    ServedIsPart(f.h, layer, f.pad, level, r, CeilLog(|layer|), Log2(r.length), Position(r), data);
  }

  /** A part of the layer taken keeps what there is of it right. */
  lemma PartAgrees(had: seq<bool>, was: seq<Hash>, hashes: seq<Hash>, layer: seq<Hash>, c: nat, data: seq<Hash>)
    requires Agrees(had, was, layer) && c < |had| && AsksFor(|layer|, c, |data|)
    requires Placed(was, hashes, c * MAX_HASHES_PER_REQUEST, data) && PartOf(layer, c * MAX_HASHES_PER_REQUEST, data)
    ensures Agrees(had[c := true], hashes, layer)
  {
    forall i | 0 <= i < |layer| && had[c := true][PartAt(|layer|, i)]
      ensures hashes[i] == layer[i]
    {
      var index := c * MAX_HASHES_PER_REQUEST;
      assert PartAt(|layer|, i) == c ==> index <= i < index + |data|;
    }
  }

  lemma AllAgree(got: seq<bool>, hashes: seq<Hash>, layer: seq<Hash>)
    requires Agrees(got, hashes, layer) && forall c :: 0 <= c < |got| ==> got[c]
    ensures hashes == layer
  {
  }

  /** The layer is stored, or no part of what there is of it is wrong and some part is missing. */
  ghost predicate Whole(stored: Option<seq<Hash>>, got: seq<bool>, hashes: seq<Hash>, layer: seq<Hash>) {
    stored == Some(layer) || (stored == None && Agrees(got, hashes, layer) && SomeMissing(got))
  }

  method TakePart(f: Fetch, layer: seq<Hash>, c: nat, length: nat, data: seq<Hash>, sender: nat)
    requires f.Valid() && f.stored == None && c < f.got.Length && f.n == |layer|
    requires Whole(f.stored, f.got[..], f.hashes[..], layer) && LayerRoot(f.h, layer, f.pad) == f.root
    requires var index := c * MAX_HASHES_PER_REQUEST;
             index in f.asked && f.asked[index] == sender && PartOf(layer, index, data)
    requires AsksFor(f.n, c, length) && |data| == length
    modifies f`asked, f`stored, f.hashes, f.got
    ensures f.Valid() && Whole(f.stored, f.got[..], f.hashes[..], layer)
    ensures f.stored == None ==> f.got[..] == old(f.got[..])[c := true]
  {
    var index := c * MAX_HASHES_PER_REQUEST;
    ghost var had, was := f.got[..], f.hashes[..];
    ghost var completes := f.Completes(index);
    assert data[..length] == data;
    f.OnHashes(index, length, data, sender);
    PartAgrees(had, was, f.hashes[..], layer, c, data);
    if completes {
      AllAgree(had[c := true], f.hashes[..], layer);
    } else {
      StillMissing(had, c);
    }
  }

  lemma StillMissing(had: seq<bool>, c: nat)
    requires c < |had| && !forall d :: 0 <= d < |had| ==> had[d] || d == c
    ensures SomeMissing(had[c := true])
  {
    var d :| 0 <= d < |had| && !had[d] && d != c;
    assert !had[c := true][d];
  }

  predicate SomeMissing(got: seq<bool>) { exists d :: 0 <= d < |got| && !got[d] }

  /** No part an index cannot name has come. */
  predicate NoneBeyond(got: seq<bool>) { forall d :: PARTS <= d < |got| ==> !got[d] }

  /** A part of a layer whose indices wrap around: it never becomes whole. */
  method TakeWrapped(f: Fetch, index: nat, length: nat, data: seq<Hash>, sender: nat)
    requires f.Valid() && f.stored == None && f.n > TWO_TO_32 && index < TWO_TO_32 && NoneBeyond(f.got[..])
    modifies f`asked, f`stored, f.hashes, f.got
    ensures f.Valid() && f.stored == None && NoneBeyond(f.got[..])
  {
    assert PARTS < f.got.Length && !f.got[..][PARTS];
    assert !f.got[PARTS] && !f.Completes(index);
    f.OnHashes(index, length, data, sender);
  }

  /** Asking a peer for any layer of two or more hashes, its parts in any order, gives back that layer exactly if an index
      of 32 bits can name every hash; the parts of a longer one never all come. */
  method Exchange(h: Pair, pad: Hash, layer: seq<Hash>, level: nat, peer: nat, order: seq<nat>)
    returns (stored: Option<seq<Hash>>)
    requires 2 <= |layer| && forall c :: 0 <= c < Chunks(|layer|) ==> c in order
    ensures stored == if |layer| <= TWO_TO_32 then Some(layer) else None
  {
    var root := MerkleRoot(h, layer, |layer|, pad);
    var f := new Fetch(h, pad, root, |layer|);
    assert !f.got[..][0];
    for i := 0 to |order|
      invariant f.Valid()
      invariant |layer| > TWO_TO_32 ==> f.stored == None && NoneBeyond(f.got[..])
      invariant |layer| <= TWO_TO_32 ==> Whole(f.stored, f.got[..], f.hashes[..], layer)
      invariant |layer| <= TWO_TO_32 && f.stored == None ==>
                  forall j :: 0 <= j < i && order[j] < f.got.Length ==> f.got[order[j]]
    {
      if f.stored.None? && order[i] < f.got.Length && !f.got[order[i]] {
        var r, data := Fetched(f, layer, order[i], level, peer);
        Wrapped(|layer|, order[i]);
        if |layer| <= TWO_TO_32 {
          TakePart(f, layer, order[i], r.length, data, peer);
        } else {
          TakeWrapped(f, r.index, r.length, data, peer);
        }
      }
    }
    if |layer| <= TWO_TO_32 && f.stored == None {
      forall d | 0 <= d < f.got.Length
        ensures f.got[..][d]
      {
        assert d in order;
      }
    }
    stored := f.stored;
  }
}
