/** A torrent over any run of what may happen to it, and what then holds in every state. */
module DownloadRuns {
  import opened Blocks
  import opened Downloads

  datatype Event =
    | Connect(peer: nat)
    | Disconnect(peer: nat)
    | DropAll(peer: nat)
    | Reject(peer: nat, r: Request)
    | Fill(peer: nat, can: seq<bool>, order: seq<nat>, id: nat, sends: bool)
    | Receive(peer: nat, r: Request)
    | Written(id: nat, b: nat, failed: bool)
    | Verified(id: nat, verdict: Verdict)
    | Kick(i: nat)
    | StartFetch(i: nat, id: nat)
    | EndFetch(id: nat, failed: bool)
    | CheckedGood(i: nat)
    | CheckedWaiting(i: nat, id: nat)
    | EndCheck
    | Recompute(files: seq<FileRange>, urgent: seq<int>)

  /** Whether it can happen now. */
  predicate Possible(t: Torrent, e: Event)
    reads t
  {
    match e
    case Connect(peer) => peer !in t.peers
    case Disconnect(peer) => peer in t.peers
    case DropAll(peer) => peer in t.peers
    case Reject(peer, r) => peer in t.peers
    case Fill(peer, can, order, id, _) =>
      && peer in t.peers && |can| == |t.pieces| && id !in t.store
      && (forall i :: 0 <= i < |can| && can[i] ==> Wanted(t.pieces[i]))
      && (forall i :: i in t.partials ==> i in order) && (forall k :: 0 <= k < |order| ==> order[k] in t.partials)
    case Receive(peer, _) => peer in t.peers
    case Written(id, b, _) => id in t.store && b in t.store[id].w.g.writes
    case Verified(id, _) => id in t.store && t.store[id].w.g.checks > 0
    case Kick(i) => i in t.partials && t.partials[i] in t.store && t.store[t.partials[i]].w.waitHashes
    case StartFetch(i, id) => i < |t.pieces| && Wanted(t.pieces[i]) && i !in t.partials && id !in t.store
    case EndFetch(id, _) => id in t.store && t.store[id].fetches > 0
    case CheckedGood(i) => t.checking && i < |t.pieces|
    case CheckedWaiting(i, id) => t.checking && i < |t.pieces| && i !in t.partials && !t.pieces[i].have && id !in t.store
    case EndCheck => t.checking
    case Recompute(files, urgent) =>
      |urgent| == |t.pieces| && forall f :: 0 <= f < |files| ==> files[f].first <= files[f].end <= |t.pieces|
  }

  predicate OfPeer(e: Event) {
    e.Connect? || e.Disconnect? || e.DropAll? || e.Reject? || e.Fill? || e.Receive?
  }

  /** What peers do, and what is asked of them. */
  method ApplyToPeer(t: Torrent, e: Event)
    requires t.Valid() && Possible(t, e) && OfPeer(e)
    modifies t
    ensures t.Valid()
  {
    match e {
      case Connect(peer) => t.Connect(peer);
      case Disconnect(peer) => t.Disconnect(peer);
      case DropAll(peer) => t.DropAll(peer);
      case Reject(peer, r) => t.Forget(peer, r);
      case Fill(peer, can, order, id, sends) => var _, _, _ := t.Fill(peer, can, order, id, sends);
      case Receive(peer, r) => var _, _, _ := t.Receive(peer, r);
    }
  }

  predicate OfPiece(e: Event) { e.Written? || e.Verified? || e.Kick? }

  predicate OfFetch(e: Event) { e.StartFetch? || e.EndFetch? }

  /** What becomes of a piece. */
  method ApplyToPiece(t: Torrent, e: Event)
    requires t.Valid() && Possible(t, e) && OfPiece(e)
    modifies t
    ensures t.Valid()
  {
    match e {
      case Written(id, b, failed) => var _ := t.Written(id, b, failed);
      case Verified(id, verdict) => t.Verified(id, verdict);
      case Kick(i) => var _ := t.Kick(i);
    }
  }

  /** What a web seed does. */
  method ApplyToFetch(t: Torrent, e: Event)
    requires t.Valid() && Possible(t, e) && OfFetch(e)
    modifies t
    ensures t.Valid()
  {
    match e {
      case StartFetch(i, id) => t.StartFetch(i, id);
      case EndFetch(id, failed) => EndsFetch(t, id, failed);
    }
  }

  method EndsFetch(t: Torrent, id: nat, failed: bool)
    requires t.Valid() && id in t.store && t.store[id].fetches > 0
    modifies t
    ensures t.Valid()
  {
    var _ := t.EndFetch(id, failed);
  }

  /** What a check of the storage finds, and new priorities. */
  method ApplyToCheck(t: Torrent, e: Event)
    requires t.Valid() && Possible(t, e) && !OfPeer(e) && !OfPiece(e) && !OfFetch(e)
    modifies t
    ensures t.Valid()
  {
    match e {
      case CheckedGood(i) => t.MarkHave(i);
      case CheckedWaiting(i, id) => t.CheckedWaiting(i, id);
      case EndCheck => t.EndCheck();
      case Recompute(files, urgent) => t.RecomputePriorities(files, urgent);
    }
  }

  method Apply(t: Torrent, e: Event)
    requires t.Valid() && Possible(t, e)
    modifies t
    ensures t.Valid()
  {
    if OfPeer(e) {
      ApplyToPeer(t, e);
    } else if OfPiece(e) {
      ApplyToPiece(t, e);
    } else if OfFetch(e) {
      ApplyToFetch(t, e);
    } else {
      ApplyToCheck(t, e);
    }
  }

  /** Any run, the events that cannot happen passed over. */
  method Run(lens: seq<nat>, prios: seq<int>, sequential: bool, script: seq<Event>) returns (t: Torrent)
    requires Lengths(lens) && |prios| == |lens|
    ensures t.Valid() && t.lens == lens
  {
    t := new Torrent(lens, prios, sequential);
    for n := 0 to |script|
      invariant t.Valid() && t.lens == lens
    {
      if Possible(t, script[n]) {
        Apply(t, script[n]);
      }
    }
  }

  // ---- What holds in every state of a run.

  /** No block is held back by requests nobody has: one that is counted as asked for is outstanding with a peer, or
      its piece is being fetched from a web seed; and it is asked of no more than two. */
  lemma NoBlockIsHeldBack(t: Torrent, i: nat, b: nat)
    requires t.Valid() && i in t.partials && b < |t.store[t.partials[i]].reqs|
    ensures b < BlockCount(t.lens[i])
    ensures var p := t.store[t.partials[i]];
            && p.reqs[b] <= MAX_BLOCK_DUPLICATES
            && p.reqs[b] <= |Holders(t.peers, BlockRequest(t.lens, i, b))| + p.fetches
            && (p.reqs[b] > 0 && p.fetches == 0 ==>
                  exists peer :: peer in t.peers && BlockRequest(t.lens, i, b) in t.peers[peer])
  {
    var p := t.store[t.partials[i]];
    assert ReqsOk(t.lens, p, t.peers);
    assert ReqOk(t.lens, p, b, t.peers);
    var holders := Holders(t.peers, BlockRequest(t.lens, i, b));
    if p.reqs[b] > 0 && p.fetches == 0 {
      var peer :| peer in holders;
    }
  }

  /** A check of a piece runs once at a time, only once every block has come and been written, and none is written
      meanwhile; its blocks are counted right. */
  lemma ChecksAreExclusive(t: Torrent, id: nat)
    requires t.Valid() && id in t.store
    ensures var p := t.store[id];
            && p.w.g.checks <= 1 && p.w.count == CountTrue(p.w.done)
            && (p.w.g.checks == 1 ==> p.w.g.writes == {} && forall b :: 0 <= b < |p.w.done| ==> p.w.done[b])
  {
    CountTrueAll(t.store[id].w.done);
  }

  /** What is had, what is missing, and when Done is closed. */
  lemma DoneMeansHad(t: Torrent)
    requires t.Valid()
    ensures t.haveCount == CountHave(t.pieces) && t.missing == CountMissing(t.pieces)
    ensures !t.checking ==>
              (t.doneClosed <==> forall i :: 0 <= i < |t.pieces| && t.pieces[i].prio > PRIORITY_NONE ==> t.pieces[i].have)
  {
    NoneMissing(t.pieces);
    assert forall i :: 0 <= i < |t.pieces| ==>
                         (Wanted(t.pieces[i]) <==> !t.pieces[i].have && t.pieces[i].prio > PRIORITY_NONE);
  }
}
