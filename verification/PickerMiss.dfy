/** A run in which a peer is asked for nothing although a piece could be begun for it. */
module PickerMiss {
  import opened Blocks
  import opened Downloads

  // Two pieces of a block each, the first wanted more, either of which may be asked for.
  const TWO := [1, 1]
  const BOTH := [true, true]
  const FIRST := Request(0, 0, 1)

  ghost predicate TwoPieces(t: Torrent)
    reads t
  {
    t.Requesting() && t.lens == TWO && Opened(t.pieces, t.haveCount, t.missing, t.checking)
  }

  predicate Opened(pieces: seq<Piece>, haveCount: int, missing: int, checking: bool) {
    Ordered(pieces) && haveCount == 0 && missing == 2 && checking
  }

  predicate FirstUnderWay(partials: map<nat, nat>) { partials.Keys == {0} && partials[0] == 10 }

  predicate Just(store: map<nat, Partial>, p: Partial) {
    10 in store && 11 !in store && 12 !in store && store[10] == p
  }

  predicate Pending(peers: map<nat, set<Request>>, one: set<Request>, two: set<Request>) {
    1 in peers && 2 in peers && peers[1] == one && peers[2] == two
  }

  /** The block of the first piece has come. */
  predicate Comes(store: map<nat, Partial>) {
    10 in store && 12 !in store && store[10] == Received(NewPartial(0, 1, 1, 0), 0).(reqs := store[10].reqs)
  }

  predicate Ordered(pieces: seq<Piece>) {
    |pieces| == 2 && Wanted(pieces[0]) && Wanted(pieces[1]) && pieces[0].prio > pieces[1].prio
  }

  lemma OneBlock(r: Request)
    ensures BlockCount(1) == 1 && Lengths(TWO) && BlockRequest(TWO, 0, 0) == FIRST
    ensures BlockRequest(TWO, 1, 0) == Request(1, 0, 1)
    ensures IsBlock(TWO, r) && r.index == 0 ==> r == FIRST
  {
  }

  /** Nothing is under way, or only the first piece, as it is begun. */
  ghost predicate AtStart(partials: map<nat, nat>, store: map<nat, Partial>) {
    partials == map[] || (FirstUnderWay(partials) && Just(store, NewPartial(0, 1, 0, 0)))
  }

  /** The first piece is then chosen, and has a block for a peer with nothing outstanding. */
  lemma FirstIsChosen(pieces: seq<Piece>, partials: map<nat, nat>, store: map<nat, Partial>, best: nat)
    requires Ordered(pieces) && AtStart(partials, store)
    requires Chosen(pieces, partials, store, BOTH, best) || NothingFree(partials, store, BOTH)
    ensures best == 0 && Asks(TWO, partials, store, {}, BOTH, best)
    ensures Offers(TWO, partials, {}, BOTH, best) || FreeFor(TWO, partials, store, {}, BOTH, best)
  {
    OneBlock(FIRST);
    var p := NewPartial(0, 1, 0, 0);
    assert Free(p, 0) && Askable(p, 0);
    NewIsOk(TWO, 0, 0, 0);
    if partials == map[] {
      assert Begins(partials, BOTH, 0);
      assert BlockRequest(TWO, 0, 0) !in {};
    } else {
      assert UnderWayIn(partials, store, BOTH, 0);
      assert Shareable(TWO, partials, store, {}, BOTH, 0);
    }
  }

  lemma FirstIsAsked(partials: map<nat, nat>, store: map<nat, Partial>, after: map<nat, Partial>, id: nat, r: Request)
    requires AtStart(partials, store) && (partials == map[] ==> store == map[] && id == 10)
    requires IsBlock(TWO, r) && r.index in NowUnderWay(partials, BOTH, 0, id)
    requires OneMore(WithBegun(TWO, partials, store, BOTH, 0, id), after, NowUnderWay(partials, BOTH, 0, id)[r.index],
                     r.begin / BLOCK_SIZE)
    ensures r == FIRST && FirstUnderWay(NowUnderWay(partials, BOTH, 0, id)) && Just(after, NewPartial(0, 1, 1, 0))
  {
    OneBlock(r);
    var p := NewPartial(0, 1, 0, 0);
    assert Just(WithBegun(TWO, partials, store, BOTH, 0, id), p);
    assert p.reqs[0 := 1] == NewPartial(0, 1, 1, 0).reqs;
  }

  /** The first piece is picked for a peer with nothing outstanding. */
  method PickFirst(t: Torrent, peer: nat, order: seq<nat>, id: nat) returns (r: Request)
    requires TwoPieces(t) && peer in t.peers && t.peers[peer] == {} && AtStart(t.partials, t.store) && id !in t.store
    requires t.partials == map[] ==> t.store == map[] && id == 10
    requires order == if t.partials == map[] then [] else [0]
    modifies t`partials, t`store, t`endgame
    ensures r == FIRST && t.Asking(peer, r) && t.endgame == old(t.endgame)
    ensures FirstUnderWay(t.partials) && Just(t.store, NewPartial(0, 1, 1, 0))
  {
    var q, _, _, best := t.NextRequest(peer, BOTH, order, id);
    r := q;
    FirstIsChosen(t.pieces, old(t.partials), old(t.store), best);
    FirstIsAsked(old(t.partials), old(t.store), t.store, id, r);
  }

  /** A peer with nothing outstanding is asked for the first piece. */
  method AskForFirst(t: Torrent, peer: nat, order: seq<nat>, id: nat)
    requires TwoPieces(t) && peer in t.peers && t.peers[peer] == {} && AtStart(t.partials, t.store) && id !in t.store
    requires t.partials == map[] ==> t.store == map[] && id == 10
    requires order == if t.partials == map[] then [] else [0]
    modifies t`partials, t`store, t`endgame, t`peers
    ensures TwoPieces(t) && t.endgame == old(t.endgame) && FirstUnderWay(t.partials)
    ensures Just(t.store, NewPartial(0, 1, 1, 0)) && t.peers == old(t.peers)[peer := {FIRST}]
  {
    var r := PickFirst(t, peer, order, id);
    t.Hold(peer, r);
  }

  method TwoPeers(high: int, low: int) returns (t: Torrent)
    requires high > low > PRIORITY_NONE
    ensures fresh(t) && TwoPieces(t) && !t.endgame
    ensures t.partials == map[] && t.store == map[] && Pending(t.peers, {}, {})
  {
    t := new Torrent(TWO, [high, low], false);
    TwoAreCounted(t.pieces);
    t.Connect(1);
    t.Connect(2);
  }

  /** Peer 1 is snubbed. */
  method Snub(t: Torrent)
    requires TwoPieces(t) && FirstUnderWay(t.partials) && Just(t.store, NewPartial(0, 1, 1, 0))
    requires Pending(t.peers, {FIRST}, {})
    modifies t`store, t`peers
    ensures TwoPieces(t) && Just(t.store, NewPartial(0, 1, 0, 0)) && Pending(t.peers, {}, {})
  {
    t.DropAll(1);
    NoMoreCounted(t.partials, old(t.store), t.store);
  }

  lemma NoMoreCounted(partials: map<nat, nat>, store: map<nat, Partial>, after: map<nat, Partial>)
    requires FirstUnderWay(partials) && Just(store, NewPartial(0, 1, 1, 0))
    requires Uncounted(TWO, partials, store, after, {FIRST})
    ensures Just(after, NewPartial(0, 1, 0, 0))
  {
    OneBlock(FIRST);
    assert 0 in partials;
    assert after[10].reqs == NewPartial(0, 1, 0, 0).reqs;
  }

  /** The late block of peer 1 comes, while peer 2 has it outstanding. */
  method LateBlock(t: Torrent)
    requires TwoPieces(t) && !t.endgame && FirstUnderWay(t.partials)
    requires Just(t.store, NewPartial(0, 1, 1, 0)) && Pending(t.peers, {}, {FIRST})
    modifies t`store, t`peers
    ensures TwoPieces(t) && Without(old(t.peers), t.peers, {1}, FIRST)
    ensures |old(t.store)[10].w.done| == 1 && SameWork(old(t.store)[10 := Received(old(t.store)[10], 0)], t.store)
  {
    FirstIsTaken(t.partials, t.store);
    var _, _, _ := t.Receive(1, FIRST);
  }

  /** It is written, and its check fails. */
  method FailedCheck(t: Torrent)
    requires TwoPieces(t) && FirstUnderWay(t.partials)
    requires Comes(t.store)
    modifies t`pieces, t`partials, t`store, t`haveCount, t`missing, t`doneClosed
    ensures TwoPieces(t) && t.partials == map[] && 12 !in t.store
  {
    BlockComes(t.store);
    TwoAreCounted(t.pieces);
    var _ := t.Written(10, 0, false);
    t.Verified(10, Bad);
  }

  lemma TwoAreCounted(pieces: seq<Piece>)
    requires Ordered(pieces)
    ensures CountHave(pieces) == 0 && CountMissing(pieces) == 2
  {
    assert pieces[1..][0] == pieces[1] && pieces[1..][1..] == [];
    assert CountHave(pieces[1..]) == 0 && CountMissing(pieces[1..]) == 1;
  }

  lemma NothingForgotten(before: map<nat, set<Request>>, after: map<nat, set<Request>>)
    requires Pending(before, {}, {FIRST}) && Without(before, after, {1}, FIRST)
    ensures Pending(after, {}, {FIRST})
  {
  }

  lemma FirstIsTaken(partials: map<nat, nat>, store: map<nat, Partial>)
    requires FirstUnderWay(partials) && Just(store, NewPartial(0, 1, 1, 0))
    ensures FIRST.index in partials && IsBlock(TWO, FIRST) && Takes(store[10], FIRST.begin / BLOCK_SIZE)
    ensures FIRST.begin / BLOCK_SIZE == 0 && |store[10].w.done| == 1
  {
    OneBlock(FIRST);
  }

  lemma FirstComes(before: map<nat, Partial>, after: map<nat, Partial>)
    requires Just(before, NewPartial(0, 1, 1, 0)) && |before[10].w.done| == 1
    requires SameWork(before[10 := Received(before[10], 0)], after)
    ensures Comes(after)
  {
  }

  lemma BlockComes(store: map<nat, Partial>)
    requires Comes(store)
    ensures 10 in store && store[10].w.g.writes == {0} && |store[10].w.done| == 1 && store[10].index == 0
    ensures var q := WriteEnds(store[10], 0, false); Complete(q) && q.w.g.writes == {} && !q.w.busy && !q.w.waitHashes
  {
  }

  method AskedOfOne(high: int, low: int) returns (t: Torrent)
    requires high > low > PRIORITY_NONE
    ensures fresh(t) && TwoPieces(t) && !t.endgame && FirstUnderWay(t.partials)
    ensures Just(t.store, NewPartial(0, 1, 0, 0)) && Pending(t.peers, {}, {})
  {
    t := TwoPeers(high, low);
    AskForFirst(t, 1, [], 10);
    Snub(t);
  }

  method AskedOfBoth(high: int, low: int) returns (t: Torrent)
    requires high > low > PRIORITY_NONE
    ensures fresh(t) && TwoPieces(t) && !t.endgame && FirstUnderWay(t.partials)
    ensures Just(t.store, NewPartial(0, 1, 1, 0)) && Pending(t.peers, {}, {FIRST})
  {
    t := AskedOfOne(high, low);
    AskForFirst(t, 2, [0], 11);
  }

  method BlockInHand(high: int, low: int) returns (t: Torrent)
    requires high > low > PRIORITY_NONE
    ensures fresh(t) && TwoPieces(t) && FirstUnderWay(t.partials) && Comes(t.store) && Pending(t.peers, {}, {FIRST})
  {
    t := AskedOfBoth(high, low);
    ghost var store, peers := t.store, t.peers;
    LateBlock(t);
    NothingForgotten(peers, t.peers);
    FirstComes(store, t.store);
  }

  /** The first piece is asked of peer 1, which is snubbed, and then of peer 2. The late block of peer 1 completes it, and
      its check fails while peer 2 still has it outstanding. Peer 2 is then asked for nothing: the piece begun again is
      the one wanted most, and what peer 2 has outstanding is all there is of it. The other piece could be begun.
      `partials` and `store` are as the last request finds them. */
  method AskedForNothing(high: int, low: int)
    returns (t: Torrent, ok: bool, ghost partials: map<nat, nat>, ghost store: map<nat, Partial>, ghost best: nat)
    requires high > low > PRIORITY_NONE
    ensures t.Valid() && 2 in t.peers && t.partials == NowUnderWay(partials, BOTH, best, 12)
    ensures Chosen(t.pieces, partials, store, BOTH, best)
    ensures ok <==> Asks(t.lens, partials, store, t.peers[2], BOTH, best)
    ensures !ok && CouldAsk(t.lens, partials, store, t.peers[2], BOTH) && Offers(t.lens, t.partials, t.peers[2], BOTH, 1)
  {
    t := BlockInHand(high, low);
    FailedCheck(t);
    partials, store := t.partials, t.store;
    ok, best := AskPeer2(t);
    TwoAreCounted(t.pieces);
  }

  method AskPeer2(t: Torrent) returns (ok: bool, ghost best: nat)
    requires TwoPieces(t) && t.partials == map[] && 12 !in t.store && 2 in t.peers && t.peers[2] == {FIRST}
    modifies t`partials, t`store, t`endgame
    ensures TwoPieces(t) && t.partials == NowUnderWay(old(t.partials), BOTH, best, 12)
    ensures Chosen(t.pieces, old(t.partials), old(t.store), BOTH, best)
    ensures ok <==> Asks(t.lens, old(t.partials), old(t.store), t.peers[2], BOTH, best)
    ensures !ok && CouldAsk(t.lens, old(t.partials), old(t.store), t.peers[2], BOTH)
    ensures Offers(t.lens, t.partials, t.peers[2], BOTH, 1)
  {
    var _, picked, _, chosen := t.NextRequest(2, BOTH, [], 12);
    FirstIsChosen(t.pieces, old(t.partials), old(t.store), chosen);
    NothingForPeer(old(t.partials), old(t.store));
    ok, best := picked, chosen;
  }

  lemma NothingForPeer(partials: map<nat, nat>, store: map<nat, Partial>)
    requires partials == map[]
    ensures !Asks(TWO, partials, store, {FIRST}, BOTH, 0) && CouldAsk(TWO, partials, store, {FIRST}, BOTH)
    ensures Offers(TWO, NowUnderWay(partials, BOTH, 0, 12), {FIRST}, BOTH, 1)
  {
    OneBlock(FIRST);
    assert BlockRequest(TWO, 1, 0) !in {FIRST};
    assert Offers(TWO, partials, {FIRST}, BOTH, 1);
  }
}
