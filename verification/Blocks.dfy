/** The blocks of a torrent's pieces, the requests for them, and who holds which. */
module Blocks {
  import opened Basics

  const BLOCK_SIZE := 16384
  const MAX_BLOCK_DUPLICATES := 2

  /** A request as the peer protocol carries it, its fields of 32 bits each. */
  datatype Request = Request(index: nat, begin: nat, length: nat)

  function BlockCount(n: nat): nat { (n + BLOCK_SIZE - 1) / BLOCK_SIZE }

  /** The pieces' lengths: none is empty, and offsets in them fit their field. */
  predicate Lengths(lens: seq<nat>) {
    |lens| <= TWO_TO_32 && forall i :: 0 <= i < |lens| ==> 0 < lens[i] <= TWO_TO_32
  }

  /** blockRequest. */
  function BlockRequest(lens: seq<nat>, i: nat, b: nat): Request
    requires i < |lens| && b < BlockCount(lens[i])
  {
    var begin := b * BLOCK_SIZE;
    Request(i % TWO_TO_32, begin % TWO_TO_32, Min(BLOCK_SIZE, lens[i] - begin) % TWO_TO_32)
  }

  /** The request is for a block there is. */
  predicate IsBlock(lens: seq<nat>, r: Request) {
    && r.index < |lens| && r.begin / BLOCK_SIZE < BlockCount(lens[r.index])
    && r == BlockRequest(lens, r.index, r.begin / BLOCK_SIZE)
  }

  /** A piece's requests cover it end to end, with 1 to 16384 bytes each, and name their blocks. */
  lemma BlocksTile(lens: seq<nat>, i: nat, b: nat)
    requires Lengths(lens) && i < |lens| && b < BlockCount(lens[i])
    ensures var r := BlockRequest(lens, i, b);
            && IsBlock(lens, r) && r.index == i && r.begin / BLOCK_SIZE == b && r.begin % BLOCK_SIZE == 0
            && 1 <= r.length <= BLOCK_SIZE && (b == 0 ==> r.begin == 0)
            && (b + 1 == BlockCount(lens[i]) ==> r.begin + r.length == lens[i])
            && (b + 1 < BlockCount(lens[i]) ==> r.begin + r.length == BlockRequest(lens, i, b + 1).begin)
  {
  }

  /** So each byte of a piece is in one block's request and no other's. */
  lemma ByteIsInOneBlock(lens: seq<nat>, i: nat, at: nat)
    requires Lengths(lens) && i < |lens| && at < lens[i]
    ensures at / BLOCK_SIZE < BlockCount(lens[i])
    ensures forall b :: 0 <= b < BlockCount(lens[i]) ==>
              (b == at / BLOCK_SIZE <==>
                 var r := BlockRequest(lens, i, b); r.begin <= at < r.begin + r.length)
  {
    forall b | 0 <= b < BlockCount(lens[i])
      ensures b == at / BLOCK_SIZE <==> var r := BlockRequest(lens, i, b); r.begin <= at < r.begin + r.length
    {
      BlocksTile(lens, i, b);
    }
  }

  // ---- Holders.

  /** The peers that have the request outstanding. */
  function Holders(peers: map<nat, set<Request>>, r: Request): set<nat> {
    set p | p in peers && r in peers[p]
  }

  lemma SetGrows(s: set<nat>, x: nat)
    ensures |s + {x}| == |s| + One(x !in s)
  {
    if x in s {
      assert s + {x} == s;
    }
  }

  /** A peer asked for one request more. */
  lemma HoldersAdd(peers: map<nat, set<Request>>, p: nat, r: Request, q: Request)
    requires p in peers && r !in peers[p]
    ensures |Holders(peers[p := peers[p] + {r}], q)| == |Holders(peers, q)| + One(q == r)
  {
    var after := Holders(peers[p := peers[p] + {r}], q);
    if q == r {
      assert after == Holders(peers, q) + {p};
      SetGrows(Holders(peers, q), p);
    } else {
      assert after == Holders(peers, q);
    }
  }

  /** A peer with one request less. */
  lemma HoldersDrop(peers: map<nat, set<Request>>, p: nat, r: Request, q: Request)
    requires p in peers && r in peers[p]
    ensures |Holders(peers[p := peers[p] - {r}], q)| == |Holders(peers, q)| - One(q == r)
  {
    var less := peers[p := peers[p] - {r}];
    HoldersAdd(less, p, r, q);
    assert less[p := less[p] + {r}] == peers by {
      assert less[p] + {r} == peers[p];
    }
  }

  /** A peer that comes or goes without requests holds none. */
  lemma HoldersNone(peers: map<nat, set<Request>>, p: nat, q: Request)
    requires p in peers ==> peers[p] == {}
    ensures Holders(peers[p := {}], q) == Holders(peers, q) && Holders(peers - {p}, q) == Holders(peers, q)
  {
  }
}
