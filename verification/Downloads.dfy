/** A torrent's pieces under way: which blocks are requested of whom, which have
    come, when a piece is verified, and the counts kept of it all. Each region under
    the torrent's lock is a method; what goes on outside it, the writes, checks and
    web-seed fetches under way, is kept in the piece they work for. */
module Downloads {
  import opened Basics
  import opened Blocks

  const PRIORITY_NONE := 0
  const PRIORITY_URGENT := 16
  const RANDOM_FIRST_PIECES := 4

  datatype Piece = Piece(prio: int, avail: int, have: bool)

  /** Blocks being written to storage, and verifications running. */
  datatype Busy = Busy(writes: set<nat>, checks: nat)

  /** How far a piece has got. */
  datatype Work = Work(done: seq<bool>, count: int, writing: int, busy: bool, waitHashes: bool, g: Busy)

  /** A piece being downloaded, with the web-seed fetches under way for it. It is named by a number, since a piece that
      fails its check is begun again as another one. */
  datatype Partial = Partial(index: nat, reqs: seq<nat>, fetches: nat, w: Work)

  function Repeat<T>(n: nat, x: T): (r: seq<T>)
    ensures |r| == n && forall i :: 0 <= i < n ==> r[i] == x
  {
    seq(n, _ => x)
  }

  function NewPartial(i: nat, n: nat, reqs: nat, fetches: nat): Partial {
    Partial(i, Repeat(BlockCount(n), reqs), fetches, Work(Repeat(BlockCount(n), false), 0, 0, false, false, Busy({}, 0)))
  }

  predicate Complete(p: Partial) { p.w.count == |p.w.done| }

  function CountTrue(s: seq<bool>): nat { if s == [] then 0 else One(s[0]) + CountTrue(s[1..]) }

  lemma {:induction false} CountTrueUpdate(s: seq<bool>, b: nat, v: bool)
    requires b < |s|
    ensures CountTrue(s[b := v]) == CountTrue(s) - One(s[b]) + One(v)
  {
    if b > 0 {
      CountTrueUpdate(s[1..], b - 1, v);
      assert s[b := v][1..] == s[1..][b - 1 := v];
    } else {
      assert s[0 := v][1..] == s[1..];
    }
  }

  lemma {:induction false} CountTrueAll(s: seq<bool>)
    ensures CountTrue(s) <= |s|
    ensures CountTrue(s) == |s| <==> forall b :: 0 <= b < |s| ==> s[b]
    ensures (forall b :: 0 <= b < |s| ==> !s[b]) ==> CountTrue(s) == 0
  {
    if s != [] {
      CountTrueAll(s[1..]);
      assert forall b :: 0 < b < |s| ==> s[b] == s[1..][b - 1];
    }
  }

  // ---- What is kept true, value by value.

  /** A piece under way: its counts are right, a check runs only once every block has been
      written, one at a time, and what is being written has come. */
  ghost predicate WorkOk(n: nat, w: Work) {
    && |w.done| == n && w.count == CountTrue(w.done) && w.writing == |w.g.writes|
    && (forall b :: b in w.g.writes ==> b < n && w.done[b])
    && (w.busy ==> w.count == n && w.writing == 0)
    && w.g.checks == One(w.busy)
  }

  ghost predicate PartialOk(lens: seq<nat>, p: Partial) {
    p.index < |lens| && |p.reqs| == BlockCount(lens[p.index]) && WorkOk(BlockCount(lens[p.index]), p.w)
  }

  ghost predicate StoreOk(lens: seq<nat>, pieces: seq<Piece>, partials: map<nat, nat>, store: map<nat, Partial>) {
    && Lengths(lens) && |pieces| == |lens|
    && (forall id :: id in store ==> PartialOk(lens, store[id]))
    && (forall i :: i in partials ==> partials[i] in store && store[partials[i]].index == i && !pieces[i].have)
  }

  ghost predicate PendingOk(lens: seq<nat>, peers: map<nat, set<Request>>) {
    forall p, r :: p in peers && r in peers[p] ==> IsBlock(lens, r)
  }

  /** A block is asked for of at most two, and each count stands for a peer or a fetch that has it outstanding. */
  ghost predicate ReqOk(lens: seq<nat>, p: Partial, b: nat, peers: map<nat, set<Request>>)
    requires p.index < |lens| && b < |p.reqs| == BlockCount(lens[p.index])
  {
    && p.reqs[b] <= MAX_BLOCK_DUPLICATES
    && p.reqs[b] <= |Holders(peers, BlockRequest(lens, p.index, b))| + p.fetches
  }

  ghost predicate ReqsOk(lens: seq<nat>, p: Partial, peers: map<nat, set<Request>>)
    requires PartialOk(lens, p)
  {
    forall b :: 0 <= b < |p.reqs| ==> ReqOk(lens, p, b, peers)
  }

  ghost predicate RequestsOk(lens: seq<nat>, partials: map<nat, nat>, store: map<nat, Partial>,
                             peers: map<nat, set<Request>>)
    requires forall id :: id in store ==> PartialOk(lens, store[id])
  {
    forall i :: i in partials && partials[i] in store ==> ReqsOk(lens, store[partials[i]], peers)
  }

  predicate Wanted(p: Piece) { !p.have && p.prio > PRIORITY_NONE }

  function CountHave(s: seq<Piece>): nat { if s == [] then 0 else One(s[0].have) + CountHave(s[1..]) }

  function CountMissing(s: seq<Piece>): nat { if s == [] then 0 else One(Wanted(s[0])) + CountMissing(s[1..]) }

  lemma {:induction false} CountsUpdate(s: seq<Piece>, i: nat, p: Piece)
    requires i < |s|
    ensures CountHave(s[i := p]) == CountHave(s) - One(s[i].have) + One(p.have)
    ensures CountMissing(s[i := p]) == CountMissing(s) - One(Wanted(s[i])) + One(Wanted(p))
  {
    if i > 0 {
      CountsUpdate(s[1..], i - 1, p);
      assert s[i := p][1..] == s[1..][i - 1 := p];
    } else {
      assert s[0 := p][1..] == s[1..];
    }
  }

  lemma {:induction false} CountsNext(s: seq<Piece>, p: Piece)
    ensures CountMissing(s + [p]) == CountMissing(s) + One(Wanted(p))
  {
    if s != [] {
      CountsNext(s[1..], p);
      assert (s + [p])[1..] == s[1..] + [p];
    }
  }

  /** The counts are those they stand for, and Done is closed when nothing wanted is missing, unless a check is under
      way. */
  ghost predicate CountsOk(pieces: seq<Piece>, haveCount: int, missing: int, checking: bool, doneClosed: bool) {
    && haveCount == CountHave(pieces) && missing == CountMissing(pieces)
    && (!checking ==> (doneClosed <==> missing == 0))
  }

  predicate Free(p: Partial, b: nat)
    requires b < |p.reqs| == |p.w.done|
  {
    !p.w.done[b] && p.reqs[b] == 0
  }

  predicate Askable(p: Partial, b: nat)
    requires b < |p.reqs| == |p.w.done|
  {
    !p.w.done[b] && p.reqs[b] < MAX_BLOCK_DUPLICATES
  }

  predicate HasFree(p: Partial) { |p.reqs| == |p.w.done| && exists b :: 0 <= b < |p.reqs| && Free(p, b) }

  datatype Verdict = Good | NoLayer | Bad | Unread

  /** Every block has come and been written, and no check runs. */
  predicate Ready(p: Partial) { Complete(p) && p.w.writing == 0 && !p.w.busy }

  /** The pieces a file has bytes in, and its priority; a file of padding, or an empty one, is not listed. */
  datatype FileRange = FileRange(first: nat, end: nat, prio: int)

  predicate Covers(f: FileRange, i: nat) { f.first <= i < f.end }

  /** `prio` is the highest of `least` and the priorities of the first `n` files that cover the piece. */
  ghost predicate IsHighest(files: seq<FileRange>, n: nat, i: nat, least: int, prio: int)
    requires n <= |files|
  {
    && least <= prio && PRIORITY_NONE <= prio
    && (forall f :: 0 <= f < n && Covers(files[f], i) ==> files[f].prio <= prio)
    && (prio == least || prio == PRIORITY_NONE || exists f :: 0 <= f < n && Covers(files[f], i) && files[f].prio == prio)
  }

  function OneLess(n: nat): nat { if n > 0 then n - 1 else 0 }

  function LessOne(reqs: seq<nat>): (r: seq<nat>)
    ensures |r| == |reqs| && forall b :: 0 <= b < |r| ==> r[b] == OneLess(reqs[b])
  {
    seq(|reqs|, b requires 0 <= b < |reqs| => OneLess(reqs[b]))
  }

  /** A check is over; `waits` says there is no hash to check the piece by yet. */
  function Checked(p: Partial, waits: bool): Partial
    requires p.w.g.checks > 0
  {
    p.(w := p.w.(busy := false, waitHashes := p.w.waitHashes || waits, g := p.w.g.(checks := p.w.g.checks - 1)))
  }

  /** A web seed's fetch ends: each block has one count less. */
  function FetchEnds(p: Partial): Partial
    requires p.fetches > 0
  {
    p.(reqs := LessOne(p.reqs), fetches := p.fetches - 1)
  }

  function Waiting(p: Partial, waits: bool): Partial { p.(w := p.w.(waitHashes := waits)) }

  /** Every block has come. */
  function AllDone(p: Partial): Partial { p.(w := p.w.(done := Repeat(|p.w.done|, true), count := |p.w.done|)) }

  /** A piece under way that has a block nobody was asked for. */
  predicate UnderWayIn(partials: map<nat, nat>, store: map<nat, Partial>, can: seq<bool>, i: nat) {
    && i in partials && partials[i] in store && i < |can| && can[i]
    && var p := store[partials[i]];
       !p.w.waitHashes && !Complete(p) && HasFree(p)
  }

  /** A piece that can be begun. */
  predicate Begins(partials: map<nat, nat>, can: seq<bool>, i: nat) { i < |can| && can[i] && i !in partials }

  /** No piece under way with a free block, and none that can be begun, goes before this one. */
  ghost predicate Leads(pieces: seq<Piece>, partials: map<nat, nat>, store: map<nat, Partial>, can: seq<bool>, best: nat) {
    best < |pieces| == |can|
    && forall i: nat :: UnderWayIn(partials, store, can, i) || Begins(partials, can, i) ==>
                          i < |pieces| && pieces[i].prio <= pieces[best].prio
  }

  /** The piece to ask for a block of: one that leads, and that is under way or goes before all that are. */
  ghost predicate Chosen(pieces: seq<Piece>, partials: map<nat, nat>, store: map<nat, Partial>, can: seq<bool>, best: nat) {
    && Leads(pieces, partials, store, can, best)
    && (UnderWayIn(partials, store, can, best) || Begins(partials, can, best))
    && (Begins(partials, can, best) ==>
          forall i: nat :: UnderWayIn(partials, store, can, i) ==> i < |pieces| && pieces[i].prio < pieces[best].prio)
  }

  /** No piece can be begun, and none under way has a free block. */
  ghost predicate NothingFree(partials: map<nat, nat>, store: map<nat, Partial>, can: seq<bool>) {
    forall i: nat :: !UnderWayIn(partials, store, can, i) && !Begins(partials, can, i)
  }

  /** A piece that can be begun has a block for a peer who has `pending` outstanding. */
  ghost predicate Offers(lens: seq<nat>, partials: map<nat, nat>, pending: set<Request>, can: seq<bool>, i: nat) {
    && Begins(partials, can, i) && i < |lens|
    && exists b :: 0 <= b < BlockCount(lens[i]) && BlockRequest(lens, i, b) !in pending
  }

  /** A piece under way has a block nobody was asked for, for such a peer. */
  ghost predicate FreeFor(lens: seq<nat>, partials: map<nat, nat>, store: map<nat, Partial>, pending: set<Request>,
                          can: seq<bool>, i: nat)
  {
    && UnderWayIn(partials, store, can, i) && PartialOk(lens, store[partials[i]]) && store[partials[i]].index == i
    && var p := store[partials[i]];
       exists b :: 0 <= b < |p.reqs| && Free(p, b) && BlockRequest(lens, i, b) !in pending
  }

  /** A piece under way has a block that such a peer may be asked for too. */
  ghost predicate Shareable(lens: seq<nat>, partials: map<nat, nat>, store: map<nat, Partial>, pending: set<Request>,
                            can: seq<bool>, i: nat)
  {
    && i in partials && partials[i] in store && i < |can| && can[i] && PartialOk(lens, store[partials[i]])
    && var p := store[partials[i]];
       !p.w.waitHashes && p.index == i
       && exists b :: 0 <= b < |p.reqs| && Askable(p, b) && BlockRequest(lens, i, b) !in pending
  }

  ghost predicate AnyShareable(lens: seq<nat>, partials: map<nat, nat>, store: map<nat, Partial>, pending: set<Request>,
                               can: seq<bool>)
  {
    exists i: nat :: Shareable(lens, partials, store, pending, can, i)
  }

  /** None of these goes before this one. */
  ghost predicate LeadsShared(lens: seq<nat>, pieces: seq<Piece>, partials: map<nat, nat>, store: map<nat, Partial>,
                              pending: set<Request>, can: seq<bool>, i: nat)
  {
    && i < |pieces| == |can| && Shareable(lens, partials, store, pending, can, i)
    && forall j: nat :: Shareable(lens, partials, store, pending, can, j) ==>
                          j < |pieces| && pieces[j].prio <= pieces[i].prio
  }

  /** There is a block such a peer could be asked for. */
  ghost predicate CouldAsk(lens: seq<nat>, partials: map<nat, nat>, store: map<nat, Partial>, pending: set<Request>,
                           can: seq<bool>)
  {
    AnyShareable(lens, partials, store, pending, can) || exists i: nat :: Offers(lens, partials, pending, can, i)
  }

  /** The code asks for one, `best` being the piece it chooses: it tries no other that could be begun. */
  ghost predicate Asks(lens: seq<nat>, partials: map<nat, nat>, store: map<nat, Partial>, pending: set<Request>,
                       can: seq<bool>, best: nat)
  {
    Offers(lens, partials, pending, can, best) || AnyShareable(lens, partials, store, pending, can)
  }

  /** Every block of the piece that nobody is counted as asked for, all of them if it is to be begun, is one such a peer
      already has outstanding. */
  ghost predicate Stuck(lens: seq<nat>, partials: map<nat, nat>, store: map<nat, Partial>, pending: set<Request>, i: nat) {
    && i < |lens|
    && forall b :: 0 <= b < BlockCount(lens[i]) && Unasked(partials, store, i, b) ==> BlockRequest(lens, i, b) in pending
  }

  predicate Unasked(partials: map<nat, nat>, store: map<nat, Partial>, i: nat, b: nat) {
    i in partials && partials[i] in store ==>
      var p := store[partials[i]]; b < |p.reqs| == |p.w.done| && Free(p, b)
  }

  /** The pieces under way, and their progress, once the piece chosen has been begun if need be. */
  function NowUnderWay(partials: map<nat, nat>, can: seq<bool>, best: nat, id: nat): map<nat, nat> {
    if Begins(partials, can, best) then partials[best := id] else partials
  }

  function WithBegun(lens: seq<nat>, partials: map<nat, nat>, store: map<nat, Partial>, can: seq<bool>, best: nat,
                     id: nat): map<nat, Partial>
    requires |can| == |lens|
  {
    if Begins(partials, can, best) then store[id := NewPartial(best, lens[best], 0, 0)] else store
  }

  /** The block, one that has not come, has one count more, and nothing else has changed. */
  ghost predicate OneMore(before: map<nat, Partial>, after: map<nat, Partial>, id: nat, b: nat) {
    && id in before && b < |before[id].reqs| == |before[id].w.done| && !before[id].w.done[b]
    && after == before[id := before[id].(reqs := before[id].reqs[b := before[id].reqs[b] + 1])]
  }

  class Torrent {
    const lens: seq<nat>
    var pieces: seq<Piece>
    var partials: map<nat, nat>
    var store: map<nat, Partial>
    var peers: map<nat, set<Request>>
    var haveCount: int
    var missing: int
    var checking: bool
    var doneClosed: bool
    var endgame: bool
    var sequential: bool

    ghost predicate Requesting()
      reads this`pieces, this`partials, this`store, this`peers
    {
      && StoreOk(lens, pieces, partials, store) && PendingOk(lens, peers)
      && RequestsOk(lens, partials, store, peers)
    }

    ghost predicate Counting()
      reads this`pieces, this`haveCount, this`missing, this`checking, this`doneClosed
    {
      CountsOk(pieces, haveCount, missing, checking, doneClosed)
    }

    ghost predicate Valid()
      reads this
    {
      Requesting() && Counting()
    }

    /** The torrent as its info arrives, with a check of what the storage holds begun. */
    constructor (lens: seq<nat>, prios: seq<int>, sequential: bool)
      requires Lengths(lens) && |prios| == |lens|
      ensures Valid() && this.lens == lens && peers == map[] && partials == map[] && store == map[] && checking && !endgame
      ensures |pieces| == |lens| && forall i :: 0 <= i < |pieces| ==> pieces[i] == Piece(prios[i], 0, false)
    {
      this.lens, this.sequential := lens, sequential;
      pieces := seq(|lens|, i requires 0 <= i < |lens| => Piece(prios[i], 0, false));
      partials, store, peers := map[], map[], map[];
      haveCount, checking, doneClosed, endgame := 0, true, false, false;
      missing := CountMissing(seq(|lens|, i requires 0 <= i < |lens| => Piece(prios[i], 0, false)));
      new;
      NoneHad(pieces);
    }

    // ---- Requests.

    /** releaseRequest. */
    method ReleaseRequest(r: Request)
      requires StoreOk(lens, pieces, partials, store)
      modifies `store
      ensures StoreOk(lens, pieces, partials, store)
      ensures LessAt(partials, old(store), store, r.index, r.begin / BLOCK_SIZE)
      ensures IsBlock(lens, r) ==> Uncounted(lens, partials, old(store), store, {r})
    {
      if r.index in partials {
        var id := partials[r.index];
        var p := store[id];
        var b := r.begin / BLOCK_SIZE;
        if b < |p.reqs| && p.reqs[b] > 0 {
          store := store[id := p.(reqs := p.reqs[b := p.reqs[b] - 1])];
          ReqsOnly(lens, pieces, partials, old(store), store, id, p.reqs[b := p.reqs[b] - 1]);
          ReleasedIsLess(partials, old(store), store, r.index, b);
        }
      }
      if IsBlock(lens, r) {
        LessAtIsUncounted(lens, pieces, partials, old(store), store, r);
      }
    }

    /** A request of `peer`'s that is no longer outstanding. */
    method Drop(peer: nat, r: Request)
      requires Requesting() && peer in peers && r in peers[peer]
      modifies `store, `peers
      ensures Requesting() && peers == old(peers)[peer := old(peers)[peer] - {r}]
      ensures Uncounted(lens, partials, old(store), store, {r})
    {
      ReleaseRequest(r);
      ReleaseKeeps(lens, pieces, partials, old(store), store, peers, peer, r);
      peers := peers[peer := peers[peer] - {r}];
    }

    /** Drop, the requests in `gone` having been dropped before. */
    method DropCounted(peer: nat, r: Request, ghost before: map<nat, Partial>, ghost gone: set<Request>)
      requires Requesting() && peer in peers && r in peers[peer] && r !in gone
      requires Uncounted(lens, partials, before, store, gone)
      modifies `store, `peers
      ensures Requesting() && peers == old(peers)[peer := old(peers)[peer] - {r}]
      ensures Uncounted(lens, partials, before, store, gone + {r})
    {
      Drop(peer, r);
      OneUncounted(lens, partials, before, old(store), store, gone, r);
    }

    /** The peer's requests are all gone: it choked without the Fast extension, was snubbed, or is closing. */
    method DropAll(peer: nat)
      requires Requesting() && peer in peers
      modifies `store, `peers
      ensures Requesting() && peers == old(peers)[peer := {}]
      ensures Uncounted(lens, partials, old(store), store, old(peers)[peer])
    {
      ghost var gone: set<Request> := {};
      while peers[peer] != {}
        invariant Requesting() && peer in peers && peers == old(peers)[peer := peers[peer]]
        invariant gone !! peers[peer] && gone + peers[peer] == old(peers)[peer]
        invariant Uncounted(lens, partials, old(store), store, gone)
        decreases peers[peer]
      {
        var r :| r in peers[peer];
        DropCounted(peer, r, old(store), gone);
        gone := gone + {r};
      }
      assert gone == old(peers)[peer];
    }

    method Connect(peer: nat)
      requires Requesting() && peer !in peers
      modifies `peers
      ensures Requesting() && peers == old(peers)[peer := {}]
    {
      SameHolders(lens, partials, store, peers, peers[peer := {}], peer);
      peers := peers[peer := {}];
    }

    method Disconnect(peer: nat)
      requires Requesting() && peer in peers
      modifies `store, `peers
      ensures Requesting() && peers == old(peers) - {peer}
      ensures Uncounted(lens, partials, old(store), store, old(peers)[peer])
    {
      DropAll(peer);
      SameHolders(lens, partials, store, peers, peers - {peer}, peer);
      peers := peers - {peer};
    }

    // ---- The picker.

    predicate Candidate(can: seq<bool>, i: nat)
      reads this`pieces, this`partials
      requires |can| == |pieces| && i < |pieces|
    {
      can[i] && i !in partials
    }

    /** A piece as good as any other that qualifies. */
    ghost predicate BestOf(can: seq<bool>, best: nat, n: nat)
      reads this`pieces, this`partials, this`sequential, this`haveCount
      requires |can| == |pieces| && best < n <= |pieces|
    {
      var p := pieces[best];
      && Candidate(can, best)
      && forall j :: 0 <= j < n && Candidate(can, j) ==>
           && pieces[j].prio <= p.prio
           && (pieces[j].prio == p.prio && (p.prio >= PRIORITY_URGENT || sequential) ==> best <= j)
           && (pieces[j].prio == p.prio && p.prio < PRIORITY_URGENT && !sequential && haveCount >= RANDOM_FIRST_PIECES ==>
                 p.avail <= pieces[j].avail)
    }

    /** pickPiece: the highest priority, then the lowest index for urgent pieces and in sequential mode, else
        the rarest once the first few are had. */
    method PickPiece(can: seq<bool>) returns (best: nat, found: bool)
      requires |can| == |pieces| && forall i :: 0 <= i < |can| && can[i] ==> Wanted(pieces[i])
      ensures found <==> exists i :: 0 <= i < |pieces| && Candidate(can, i)
      ensures found ==> best < |pieces| && BestOf(can, best, |pieces|)
    {
      best, found := 0, false;
      var bestPrio, bestAvail, ties := 0, 0, 0;
      var random := haveCount < RANDOM_FIRST_PIECES;
      for i := 0 to |pieces|
        invariant !found ==> forall j :: 0 <= j < i ==> !Candidate(can, j)
        invariant found ==> best < i && BestOf(can, best, i) && bestPrio == pieces[best].prio
        invariant found && bestPrio < PRIORITY_URGENT && !sequential && !random ==> bestAvail == pieces[best].avail
        invariant !found ==> bestPrio == 0
      {
        var ps := pieces[i];
        if i in partials || ps.prio < bestPrio || !can[i] {
        } else if ps.prio > bestPrio {
          best, found, bestPrio, bestAvail, ties := i, true, ps.prio, ps.avail, 1;
        } else if ps.prio >= PRIORITY_URGENT || sequential {
        } else if random {
          ties := ties + 1;
          if * {
            best := i;
          }
        } else if ps.avail < bestAvail {
          best, bestAvail, ties := i, ps.avail, 1;
        } else if ps.avail == bestAvail {
          ties := ties + 1;
          if * {
            best := i;
          }
        }
      }
    }

    /** nextRequest's first loop, over the pieces under way in whatever order. */
    method BestUnderWay(can: seq<bool>, order: seq<nat>) returns (best: nat, found: bool)
      requires StoreOk(lens, pieces, partials, store) && |can| == |pieces|
      requires forall i :: i in partials <==> i in order
      ensures found ==> UnderWayIn(partials, store, can, best)
      ensures found ==> forall i: nat :: UnderWayIn(partials, store, can, i) ==> pieces[i].prio <= pieces[best].prio
      ensures !found ==> forall i: nat :: !UnderWayIn(partials, store, can, i)
    {
      best, found := 0, false;
      for k := 0 to |order|
        invariant found ==> UnderWayIn(partials, store, can, best) && best < |pieces|
        invariant forall j :: 0 <= j < k && UnderWayIn(partials, store, can, order[j]) ==>
                    found && pieces[order[j]].prio <= pieces[best].prio
      {
        var i := order[k];
        var p := store[partials[i]];
        assert p.index == i;
        if p.w.waitHashes || Complete(p) || !can[i] {
        } else if found && pieces[i].prio <= pieces[best].prio {
        } else {
          var _, free := FirstFree(p, {}, i);
          if free {
            best, found := i, true;
          }
        }
      }
      forall i: nat | UnderWayIn(partials, store, can, i)
        ensures found && pieces[i].prio <= pieces[best].prio
      {
        assert i in order;
      }
    }

    /** The first block of the piece that nobody was asked for, but those in `pending`. */
    method FirstFree(p: Partial, pending: set<Request>, i: nat) returns (b: nat, found: bool)
      requires PartialOk(lens, p) && p.index == i
      ensures found ==> b < |p.reqs| && Free(p, b) && BlockRequest(lens, i, b) !in pending
      ensures !found ==> forall c :: 0 <= c < |p.reqs| && Free(p, c) ==> BlockRequest(lens, i, c) in pending
    {
      for c := 0 to |p.reqs|
        invariant forall d :: 0 <= d < c && Free(p, d) ==> BlockRequest(lens, i, d) in pending
      {
        if Free(p, c) && BlockRequest(lens, i, c) !in pending {
          return c, true;
        }
      }
      return 0, false;
    }

    /** Endgame: the first block of the piece that one more peer may be asked for. */
    method FirstShared(p: Partial, pending: set<Request>, i: nat) returns (b: nat, found: bool)
      requires PartialOk(lens, p) && p.index == i
      ensures found ==> b < |p.reqs| && Askable(p, b) && BlockRequest(lens, i, b) !in pending
      ensures !found ==> forall c :: 0 <= c < |p.reqs| && Askable(p, c) ==> BlockRequest(lens, i, c) in pending
    {
      for c := 0 to |p.reqs|
        invariant forall d :: 0 <= d < c && Askable(p, d) ==> BlockRequest(lens, i, d) in pending
      {
        if Askable(p, c) && BlockRequest(lens, i, c) !in pending {
          return c, true;
        }
      }
      return 0, false;
    }

    /** A piece is begun. */
    method Begin(i: nat, id: nat, reqs: nat, fetches: nat)
      requires Requesting() && i < |pieces| && !pieces[i].have && id !in store && reqs <= fetches <= 1
      modifies `partials, `store
      ensures Requesting() && partials == old(partials)[i := id]
      ensures store == old(store)[id := NewPartial(i, lens[i], reqs, fetches)]
    {
      StartKeeps(lens, pieces, partials, store, peers, i, id, reqs, fetches);
      store := store[id := NewPartial(i, lens[i], reqs, fetches)];
      partials := partials[i := id];
    }

    /** The best under way, or a new one that beats it. */
    method BestPiece(can: seq<bool>, order: seq<nat>) returns (best: nat, found: bool)
      requires StoreOk(lens, pieces, partials, store) && |can| == |pieces|
      requires forall i :: 0 <= i < |can| && can[i] ==> Wanted(pieces[i])
      requires forall i :: i in partials <==> i in order
      ensures if found then Chosen(pieces, partials, store, can, best) else NothingFree(partials, store, can)
      ensures Begins(partials, can, best) ==> BestOf(can, best, |pieces|)
    {
      best, found := BestUnderWay(can, order);
      var other, pickable := PickPiece(can);
      assert forall i: nat :: Begins(partials, can, i) ==> Candidate(can, i);
      if pickable && (!found || pieces[other].prio > pieces[best].prio) {
        best, found := other, true;
      }
    }

    /** The piece to ask for a block of: the best under way, or a new one that beats it. `id` names it. */
    method Choose(can: seq<bool>, order: seq<nat>, id: nat) returns (best: nat, found: bool, after: seq<nat>)
      requires Requesting() && |can| == |pieces| && id !in store
      requires forall i :: 0 <= i < |can| && can[i] ==> Wanted(pieces[i])
      requires forall i :: i in partials <==> i in order
      modifies `partials, `store
      ensures Requesting() && forall i :: i in partials <==> i in after
      ensures if found then Chosen(pieces, old(partials), old(store), can, best)
              else NothingFree(old(partials), old(store), can)
      ensures Begins(old(partials), can, best) ==> old(BestOf(can, best, |pieces|))
      ensures partials == NowUnderWay(old(partials), can, best, id)
      ensures store == WithBegun(lens, old(partials), old(store), can, best, id)
      ensures found <==> UnderWayIn(partials, store, can, best)
    {
      best, found := BestPiece(can, order);
      after := BeginBest(can, order, id, best, found);
    }

    method BeginBest(can: seq<bool>, order: seq<nat>, id: nat, best: nat, found: bool) returns (after: seq<nat>)
      requires Requesting() && |can| == |pieces| && id !in store && forall i :: i in partials <==> i in order
      requires forall i :: 0 <= i < |can| && can[i] ==> Wanted(pieces[i])
      requires if found then UnderWayIn(partials, store, can, best) || Begins(partials, can, best)
               else !UnderWayIn(partials, store, can, best) && !Begins(partials, can, best)
      modifies `partials, `store
      ensures Requesting() && forall i :: i in partials <==> i in after
      ensures partials == NowUnderWay(old(partials), can, best, id)
      ensures store == WithBegun(lens, old(partials), old(store), can, best, id)
      ensures found <==> UnderWayIn(partials, store, can, best)
    {
      after := order;
      if found && best !in partials {
        BegunIsUnderWay(lens, pieces, partials, store, can, best, id);
        Begin(best, id, 0, 0);
        after := order + [best];
      }
    }

    /** The endgame's loop: a block another peer has outstanding, of the highest priority. */
    method PickShared(can: seq<bool>, order: seq<nat>, peer: nat) returns (i: nat, b: nat, found: bool)
      requires Requesting() && |can| == |pieces| && peer in peers
      requires forall j :: j in partials <==> j in order
      ensures found ==> i in partials && b < |store[partials[i]].reqs| && Askable(store[partials[i]], b)
                        && BlockRequest(lens, i, b) !in peers[peer]
      ensures found ==> LeadsShared(lens, pieces, partials, store, peers[peer], can, i)
      ensures found <==> AnyShareable(lens, partials, store, peers[peer], can)
    {
      i, b, found := 0, 0, false;
      for k := 0 to |order|
        invariant found ==> i in partials && b < |store[partials[i]].reqs| && Askable(store[partials[i]], b)
                            && BlockRequest(lens, i, b) !in peers[peer]
                            && Shareable(lens, partials, store, peers[peer], can, i)
        invariant forall j :: 0 <= j < k && Shareable(lens, partials, store, peers[peer], can, order[j]) ==>
                    found && pieces[order[j]].prio <= pieces[i].prio
      {
        var j := order[k];
        var p := store[partials[j]];
        if !p.w.waitHashes && can[j] {
          var c, shared := FirstShared(p, peers[peer], j);
          if shared && (!found || pieces[j].prio > pieces[i].prio) {
            i, b, found := j, c, true;
          }
        }
      }
      forall j: nat | Shareable(lens, partials, store, peers[peer], can, j)
        ensures found && pieces[j].prio <= pieces[i].prio
      {
        assert j in order;
      }
    }

    /** One more is asked for the block. */
    method Mark(i: nat, b: nat, ghost peer: nat)
      requires Requesting() && i in partials && b < |store[partials[i]].reqs| && Askable(store[partials[i]], b)
      requires peer in peers && BlockRequest(lens, i, b) !in peers[peer]
      modifies `store
      ensures Asking(peer, BlockRequest(lens, i, b)) && OneMore(old(store), store, partials[i], b)
    {
      var p := store[partials[i]];
      var marked := store[partials[i] := p.(reqs := p.reqs[b := p.reqs[b] + 1])];
      MarkKeeps(lens, pieces, partials, store, marked, peers, i, b, peer);
      store := marked;
    }

    /** All is well once `peer` has the request `r` outstanding. */
    ghost predicate Asking(peer: nat, r: Request)
      reads this`pieces, this`partials, this`store, this`peers
    {
      && StoreOk(lens, pieces, partials, store) && PendingOk(lens, peers) && IsBlock(lens, r)
      && peer in peers && r !in peers[peer]
      && RequestsOk(lens, partials, store, peers[peer := peers[peer] + {r}])
    }

    /** A block of the piece chosen that nobody was asked for is asked of `peer`. */
    method AskFree(can: seq<bool>, best: nat, peer: nat) returns (r: Request, ok: bool)
      requires Requesting() && peer in peers && UnderWayIn(partials, store, can, best)
      modifies `store
      ensures ok <==> FreeFor(lens, partials, old(store), peers[peer], can, best)
      ensures ok ==> Asking(peer, r) && r.index == best && OneMore(old(store), store, partials[best], r.begin / BLOCK_SIZE)
      ensures !ok ==> store == old(store)
    {
      var p := store[partials[best]];
      var b, free := FirstFree(p, peers[peer], best);
      if !free {
        return Request(0, 0, 0), false;
      }
      BlocksTile(lens, best, b);
      Mark(best, b, peer);
      return BlockRequest(lens, best, b), true;
    }

    /** In endgame, a block another peer has outstanding is asked of `peer` too. */
    method AskShared(can: seq<bool>, order: seq<nat>, peer: nat) returns (r: Request, ok: bool)
      requires Requesting() && |can| == |pieces| && peer in peers && forall j :: j in partials <==> j in order
      modifies `store, `endgame
      ensures ok <==> AnyShareable(lens, partials, old(store), peers[peer], can)
      ensures ok ==> Asking(peer, r) && endgame && LeadsShared(lens, pieces, partials, old(store), peers[peer], can, r.index)
                     && OneMore(old(store), store, partials[r.index], r.begin / BLOCK_SIZE)
      ensures !ok ==> store == old(store) && endgame == old(endgame)
    {
      var i, b, shared := PickShared(can, order, peer);
      if !shared {
        return Request(0, 0, 0), false;
      }
      BlocksTile(lens, i, b);
      Mark(i, b, peer);
      endgame := true;
      return BlockRequest(lens, i, b), true;
    }

    /** A block of the piece chosen, if there is one, or else one to share. */
    method AskOf(can: seq<bool>, order: seq<nat>, peer: nat, best: nat, found: bool)
      returns (r: Request, ok: bool, first: bool)
      requires Requesting() && |can| == |pieces| && peer in peers && forall j :: j in partials <==> j in order
      requires found <==> UnderWayIn(partials, store, can, best)
      modifies `store, `endgame
      ensures first <==> FreeFor(lens, partials, old(store), peers[peer], can, best)
      ensures ok <==> first || AnyShareable(lens, partials, old(store), peers[peer], can)
      ensures ok ==> Asking(peer, r) && r.index in partials
                     && OneMore(old(store), store, partials[r.index], r.begin / BLOCK_SIZE)
      ensures first ==> r.index == best
      ensures ok && !first ==> endgame && LeadsShared(lens, pieces, partials, old(store), peers[peer], can, r.index)
      ensures !ok ==> store == old(store)
      ensures !ok || first ==> endgame == old(endgame)
    {
      first := false;
      if found {
        r, first := AskFree(can, best, peer);
      }
      ok := first;
      if !first {
        r, ok := AskShared(can, order, peer);
      }
    }

    /** nextRequest. `best` is the piece it tries first, and `first` says it found one of that piece's blocks that
        nobody had been asked for. A block is asked for if and only if that piece, begun for it, has one for the
        peer, or one of a piece under way can be shared. */
    method NextRequest(peer: nat, can: seq<bool>, order: seq<nat>, id: nat)
      returns (r: Request, ok: bool, first: bool, ghost best: nat)
      requires Requesting() && peer in peers && |can| == |pieces| && id !in store
      requires forall i :: 0 <= i < |can| && can[i] ==> Wanted(pieces[i])
      requires forall i :: i in partials <==> i in order
      modifies `partials, `store, `endgame
      ensures Chosen(pieces, old(partials), old(store), can, best) || NothingFree(old(partials), old(store), can)
      ensures Begins(old(partials), can, best) ==> old(BestOf(can, best, |pieces|))
      ensures partials == NowUnderWay(old(partials), can, best, id)
      ensures StoreOk(lens, pieces, partials, WithBegun(lens, old(partials), old(store), can, best, id))
      ensures ok <==> Asks(lens, old(partials), old(store), peers[peer], can, best)
      ensures first <==> Offers(lens, old(partials), peers[peer], can, best)
                         || FreeFor(lens, old(partials), old(store), peers[peer], can, best)
      ensures ok ==> Asking(peer, r) && r.index in partials
                     && OneMore(WithBegun(lens, old(partials), old(store), can, best, id), store, partials[r.index],
                                r.begin / BLOCK_SIZE)
      ensures first ==> r.index == best
      ensures ok && !first ==> endgame && LeadsShared(lens, pieces, old(partials), old(store), peers[peer], can, r.index)
      ensures !ok ==> Requesting() && store == WithBegun(lens, old(partials), old(store), can, best, id)
      ensures !ok || first ==> endgame == old(endgame)
    {
      var piece, found, after := Choose(can, order, id);
      best := piece;
      ChosenIsFree(lens, pieces, old(partials), old(store), peers[peer], can, best, id);
      r, ok, first := AskOf(can, after, peer, piece, found);
      if !first {
        BegunIsNotShared(lens, pieces, old(partials), old(store), peers[peer], can, best, id, r.index);
      }
    }

    /** One turn of fillRequestsLocked: a block is picked and asked for, unless the request cannot be sent. */
    method Fill(peer: nat, can: seq<bool>, order: seq<nat>, id: nat, sends: bool)
      returns (ok: bool, ghost r: Request, ghost best: nat)
      requires Requesting() && peer in peers && |can| == |pieces| && id !in store
      requires forall i :: 0 <= i < |can| && can[i] ==> Wanted(pieces[i])
      requires forall i :: i in partials <==> i in order
      modifies `partials, `store, `endgame, `peers
      ensures Requesting()
      ensures Chosen(pieces, old(partials), old(store), can, best) || NothingFree(old(partials), old(store), can)
      ensures partials == NowUnderWay(old(partials), can, best, id)
      ensures ok <==> sends && Asks(lens, old(partials), old(store), old(peers)[peer], can, best)
      ensures ok ==> r !in old(peers)[peer] && peers == old(peers)[peer := old(peers)[peer] + {r}]
                     && r.index in partials
                     && OneMore(WithBegun(lens, old(partials), old(store), can, best, id), store, partials[r.index],
                                r.begin / BLOCK_SIZE)
      ensures !ok ==> peers == old(peers) && store == WithBegun(lens, old(partials), old(store), can, best, id)
    {
      var q, picked, _, tried := NextRequest(peer, can, order, id);
      r, best := q, tried;
      Send(peer, q, picked, sends, WithBegun(lens, old(partials), old(store), can, best, id));
      ok := picked && sends;
    }

    /** The request picked is outstanding if it is sent, and otherwise given back. */
    method Send(peer: nat, r: Request, picked: bool, sends: bool, ghost before: map<nat, Partial>)
      requires StoreOk(lens, pieces, partials, before) && peer in peers
      requires if picked then Asking(peer, r) && r.index in partials
                              && OneMore(before, store, partials[r.index], r.begin / BLOCK_SIZE)
               else Requesting() && store == before
      modifies `store, `peers
      ensures Requesting() && store == (if picked && sends then old(store) else before)
      ensures peers == if picked && sends then old(peers)[peer := old(peers)[peer] + {r}] else old(peers)
    {
      if picked && sends {
        Hold(peer, r);
      } else if picked {
        GiveBack(peer, r, before);
      }
    }

    /** A request sent is outstanding. */
    method Hold(peer: nat, r: Request)
      requires Asking(peer, r)
      modifies `peers
      ensures Requesting() && r !in old(peers)[peer] && peers == old(peers)[peer := old(peers)[peer] + {r}]
    {
      peers := peers[peer := peers[peer] + {r}];
    }

    /** A request that could not be sent is released, and all is as before it was picked. */
    method GiveBack(ghost peer: nat, r: Request, ghost before: map<nat, Partial>)
      requires Asking(peer, r) && StoreOk(lens, pieces, partials, before) && r.index in partials
      requires OneMore(before, store, partials[r.index], r.begin / BLOCK_SIZE)
      modifies `store
      ensures Requesting() && store == before
    {
      ReleaseRequest(r);
      GiveBackKeeps(lens, pieces, partials, old(store), store, peers, peers[peer := peers[peer] + {r}], peer, r);
      ReleaseUndoesAsk(lens, pieces, partials, before, old(store), store, r);
    }

    // ---- Blocks that come, and the checks they lead to.

    /** A piece's progress changes, and no count of its requests. */
    method SetWork(id: nat, q: Partial)
      requires Requesting() && id in store && PartialOk(lens, q)
      requires q.index == store[id].index && q.reqs == store[id].reqs && q.fetches == store[id].fetches
      modifies `store
      ensures Requesting() && store == old(store)[id := q]
    {
      WorkKeeps(lens, pieces, partials, store, peers, id, q);
      store := store[id := q];
    }

    /** The first part of onPiece: a block that is wanted is taken, to be written, and the other peers that were
        asked for it too need not send it. */
    method Receive(peer: nat, r: Request) returns (id: nat, b: nat, taken: bool)
      requires Requesting() && peer in peers
      modifies `store, `peers
      ensures Requesting() && Without(old(peers), peers, if taken && endgame then old(peers.Keys) else {peer}, r)
      ensures taken <==> r.index in partials && IsBlock(lens, r)
                         && Takes(old(store)[partials[r.index]], r.begin / BLOCK_SIZE)
      ensures taken ==> id == partials[r.index] && b == r.begin / BLOCK_SIZE
                        && SameWork(old(store)[id := Received(old(store)[id], b)], store)
      ensures !taken ==> SameWork(old(store), store)
      ensures taken ==> b < |old(store)[id].w.done| && BlockCame(old(store)[id].w, store[id].w, b)
    {
      Forget(peer, r);
      ghost var was, left := store, peers;
      id, b, taken := Take(r);
      SameWorkThrough(old(store), was, store, id, b, taken);
      if taken {
        TakenCame(lens, old(store), store, id, b);
      }
      if taken && endgame {
        WithoutAll(old(peers), left, peers, peer, r);
      }
    }

    /** An answer has come, to a request of the peer's or to none. */
    method Forget(peer: nat, r: Request)
      requires Requesting() && peer in peers
      modifies `store, `peers
      ensures Requesting() && Without(old(peers), peers, {peer}, r) && SameWork(old(store), store)
    {
      if r in peers[peer] {
        Drop(peer, r);
      }
    }

    /** The block is accepted, if it is wanted, and in endgame taken off everybody else. */
    method Take(r: Request) returns (id: nat, b: nat, taken: bool)
      requires Requesting()
      modifies `store, `peers
      ensures Requesting()
      ensures if taken && endgame then Without(old(peers), peers, old(peers.Keys), r) else peers == old(peers)
      ensures taken <==> r.index in partials && IsBlock(lens, r)
                         && Takes(old(store)[partials[r.index]], r.begin / BLOCK_SIZE)
      ensures taken ==> id == partials[r.index] && b == r.begin / BLOCK_SIZE
                        && SameWork(old(store)[id := Received(old(store)[id], b)], store)
      ensures !taken ==> store == old(store)
    {
      id, b, taken := Accept(r);
      CancelIf(r, taken && endgame);
    }

    method CancelIf(r: Request, cancels: bool)
      requires Requesting()
      modifies `store, `peers
      ensures Requesting() && (cancels ==> Without(old(peers), peers, old(peers.Keys), r) && SameWork(old(store), store))
      ensures !cancels ==> peers == old(peers) && store == old(store)
    {
      if cancels {
        CancelOthers(r);
      }
    }

    /** A block that is wanted, of a piece not being checked. */
    method Accept(r: Request) returns (id: nat, b: nat, taken: bool)
      requires Requesting()
      modifies `store
      ensures Requesting()
      ensures taken <==> r.index in partials && IsBlock(lens, r)
                         && Takes(old(store)[partials[r.index]], r.begin / BLOCK_SIZE)
      ensures taken ==> id == partials[r.index] && b == r.begin / BLOCK_SIZE
                        && store == old(store)[id := Received(old(store)[id], b)]
      ensures !taken ==> store == old(store)
    {
      id, b, taken := IsTaken(r);
      if taken {
        ReceivedIsOk(lens, store[id], b);
        SetWork(id, Received(store[id], b));
      }
    }

    /** onPiece's checks. */
    method IsTaken(r: Request) returns (id: nat, b: nat, taken: bool)
      requires StoreOk(lens, pieces, partials, store)
      ensures taken <==> r.index in partials && IsBlock(lens, r) && Takes(store[partials[r.index]], r.begin / BLOCK_SIZE)
      ensures taken ==> id == partials[r.index] && b == r.begin / BLOCK_SIZE
    {
      b, id, taken := r.begin / BLOCK_SIZE, 0, false;
      if IsBlock(lens, r) {
        BlocksTile(lens, r.index, b);
      }
      if r.index >= |pieces| || r.begin % BLOCK_SIZE != 0 || r.index !in partials {
        return;
      }
      id := partials[r.index];
      var p := store[id];
      taken := b < |p.reqs| && BlockRequest(lens, r.index, b) == r && !p.w.done[b] && !p.w.busy;
    }

    /** The endgame's cancels: nobody has the request outstanding any more. */
    method CancelOthers(r: Request)
      requires Requesting()
      modifies `store, `peers
      ensures Requesting() && Without(old(peers), peers, old(peers.Keys), r) && SameWork(old(store), store)
    {
      var left := peers.Keys;
      while left != {}
        invariant Requesting() && left <= peers.Keys && SameWork(old(store), store)
        invariant Without(old(peers), peers, old(peers.Keys) - left, r)
        decreases |left|
      {
        var o :| o in left;
        left := left - {o};
        if r in peers[o] {
          Drop(o, r);
        }
      }
    }

    /** The end of onPiece: the block is written, or is not, and the piece is checked once every block is. */
    method Written(id: nat, b: nat, failed: bool) returns (verify: bool)
      requires Requesting() && id in store && b in store[id].w.g.writes
      modifies `store
      ensures Requesting() && b < |old(store)[id].w.done|
      ensures var q := WriteEnds(old(store)[id], b, failed);
              && (verify <==> !failed && Complete(q) && q.w.g.writes == {} && !q.w.busy && !q.w.waitHashes
                              && q.index in partials && partials[q.index] == id)
              && store == old(store)[id := if verify then StartsCheck(q) else q]
      ensures var was, now := old(store)[id].w, store[id].w;
              && |now.done| == |was.done| && now.done[b] == !failed && now.count == was.count - One(failed)
              && (forall k :: 0 <= k < |now.done| && k != b ==> now.done[k] == was.done[k])
              && now.g.writes == was.g.writes - {b} && now.writing == was.writing - 1
              && now.busy == (was.busy || verify) && now.waitHashes == was.waitHashes
              && (verify <==> && (forall k :: 0 <= k < |now.done| ==> now.done[k]) && !failed && now.g.writes == {}
                              && !was.busy && !was.waitHashes
                              && store[id].index in partials && partials[store[id].index] == id)
      ensures store[id].reqs == old(store)[id].reqs && store[id].fetches == old(store)[id].fetches
    {
      var p := store[id];
      WrittenIsOk(lens, p, b, failed);
      var q := WriteEnds(p, b, failed);
      CountTrueAll(q.w.done);
      verify := !failed && Complete(q) && q.w.writing == 0 && !q.w.busy && !q.w.waitHashes
                && p.index in partials && partials[p.index] == id;
      if verify {
        StartCheckIsOk(lens, q);
        SetWork(id, StartsCheck(q));
      } else {
        SetWork(id, q);
      }
    }

    /** dropPartial. */
    method DropPartial(i: nat)
      requires Requesting()
      modifies `partials
      ensures Requesting() && partials == old(partials) - {i}
    {
      partials := partials - {i};
    }

    /** updateDoneLocked, as far as Done goes. */
    method UpdateDone()
      requires haveCount == CountHave(pieces) && missing == CountMissing(pieces)
      modifies `doneClosed
      ensures Counting() && (checking ==> doneClosed == old(doneClosed))
    {
      if checking {
        return;
      }
      if missing == 0 && !doneClosed {
        doneClosed := true;
      } else if missing > 0 && doneClosed {
        doneClosed := false;
      }
    }

    /** markHaveLocked: the piece is had, and no longer under way. */
    method MarkHave(i: nat)
      requires Valid() && i < |pieces|
      modifies `pieces, `partials, `haveCount, `missing, `doneClosed
      ensures Valid() && pieces == old(pieces)[i := old(pieces)[i].(have := true)]
      ensures partials == if old(pieces)[i].have then old(partials) else old(partials) - {i}
    {
      if pieces[i].have {
        return;
      }
      Have(i);
      UpdateDone();
    }

    /** Its part before Done is looked at. */
    method Have(i: nat)
      requires Requesting() && i < |pieces| && !pieces[i].have
      requires haveCount == CountHave(pieces) && missing == CountMissing(pieces)
      modifies `pieces, `partials, `haveCount, `missing
      ensures Requesting() && haveCount == CountHave(pieces) && missing == CountMissing(pieces)
      ensures pieces == old(pieces)[i := old(pieces)[i].(have := true)] && partials == old(partials) - {i}
    {
      HadKeeps(lens, pieces, partials, store, peers, i);
      CountsUpdate(pieces, i, pieces[i].(have := true));
      haveCount := haveCount + 1;
      if pieces[i].prio > PRIORITY_NONE {
        missing := missing - 1;
      }
      pieces := pieces[i := pieces[i].(have := true)];
      if i in partials {
        partials := partials - {i};
      }
    }

    /** A check is over; `waits` says there was no hash to check the piece by. */
    method FinishCheck(id: nat, waits: bool)
      requires Requesting() && id in store && store[id].w.g.checks > 0
      modifies `store
      ensures Requesting() && store == old(store)[id := Checked(old(store)[id], waits)]
      ensures !store[id].w.busy && store[id].w.g.checks == 0
    {
      SetWork(id, Checked(store[id], waits));
    }

    /** What a verdict on the piece under way does to it. */
    method Settle(i: nat, verdict: Verdict)
      requires Valid() && i in partials
      modifies `pieces, `partials, `haveCount, `missing, `doneClosed
      ensures Valid()
      ensures pieces == if verdict == Good then old(pieces)[i := old(pieces)[i].(have := true)] else old(pieces)
      ensures partials == if verdict == Good || verdict == Bad then old(partials) - {i} else old(partials)
    {
      match verdict {
        case Good => MarkHave(i);
        case Bad => DropPartial(i);
        case _ =>
      }
    }

    /** verifyPiece, once the data has been read and hashed: good, without a hash to check it by, bad, or not read at all. */
    method Verified(id: nat, verdict: Verdict)
      requires Valid() && id in store && store[id].w.g.checks > 0
      modifies `pieces, `partials, `store, `haveCount, `missing, `doneClosed
      ensures Valid() && id in store && !store[id].w.busy && store[id].w.g.checks == 0
      ensures var p := old(store)[id];
              var current := p.index in old(partials) && old(partials)[p.index] == id;
              && p.index < |old(pieces)|
              && pieces == (if current && verdict == Good then old(pieces)[p.index := old(pieces)[p.index].(have := true)]
                            else old(pieces))
              && partials == (if current && verdict in {Good, Bad} then old(partials) - {p.index} else old(partials))
              && store == old(store)[id := Checked(p, current && verdict == NoLayer)]
              && store[id].w.waitHashes == (p.w.waitHashes || (current && verdict == NoLayer))
      ensures var was, now := old(store)[id].w, store[id].w;
              now.done == was.done && now.count == was.count && now.writing == was.writing && now.g.writes == was.g.writes
      ensures store[id].reqs == old(store)[id].reqs && store[id].fetches == old(store)[id].fetches
    {
      var i := store[id].index;
      var current := i in partials && partials[i] == id;
      FinishCheck(id, current && verdict == NoLayer);
      if current {
        Settle(i, verdict);
      }
    }

    /** kickWaitingLocked, for one piece under way: its layer is known now. */
    method Kick(i: nat) returns (verify: bool)
      requires Requesting() && i in partials && store[partials[i]].w.waitHashes
      modifies `store
      ensures Requesting() && (verify <==> old(Ready(store[partials[i]])))
      ensures store == var q := Waiting(old(store)[partials[i]], false);
                       old(store)[partials[i] := if verify then StartsCheck(q) else q]
      ensures var was, now := old(store)[partials[i]].w, store[partials[i]].w;
              && !now.waitHashes && now.busy == (was.busy || verify) && now.done == was.done && now.count == was.count
              && now.g.writes == was.g.writes && now.g.checks == was.g.checks + One(verify)
              && (verify <==> (forall k :: 0 <= k < |was.done| ==> was.done[k]) && was.g.writes == {} && !was.busy)
    {
      var id := partials[i];
      var p := store[id];
      var q := Waiting(p, false);
      CountTrueAll(q.w.done);
      verify := Complete(q) && q.w.writing == 0 && !q.w.busy;
      if verify {
        StartCheckIsOk(lens, q);
        SetWork(id, StartsCheck(q));
      } else {
        SetWork(id, q);
      }
    }

    // ---- Web seeds, the check of what is stored, and priorities.

    /** A web seed starts on a piece nobody has begun. */
    method StartFetch(i: nat, id: nat)
      requires Requesting() && i < |pieces| && Wanted(pieces[i]) && i !in partials && id !in store
      modifies `partials, `store
      ensures Requesting() && partials == old(partials)[i := id]
      ensures store == old(store)[id := NewPartial(i, lens[i], 1, 1)]
      ensures store[id].index == i && store[id].fetches == 1 && |store[id].reqs| == |store[id].w.done| == BlockCount(lens[i])
      ensures forall b :: 0 <= b < |store[id].reqs| ==> store[id].reqs[b] == 1 && !store[id].w.done[b]
    {
      Begin(i, id, 1, 1);
    }

    /** A web seed's fetch is over, and its counts with it. */
    method ReleaseFetch(id: nat)
      requires Requesting() && id in store && store[id].fetches > 0
      modifies `store
      ensures Requesting() && store == old(store)[id := FetchEnds(old(store)[id])]
    {
      FetchKeeps(lens, pieces, partials, store, peers, id);
      store := store[id := FetchEnds(store[id])];
    }

    /** Every block of the piece is there, and it is checked unless one is still being written. */
    method CompleteAll(id: nat) returns (verify: bool)
      requires Requesting() && id in store && !store[id].w.busy
      modifies `store
      ensures Requesting() && (verify <==> old(store)[id].w.g.writes == {})
      ensures store == old(store)[id := if verify then StartsCheck(AllDone(old(store)[id])) else AllDone(old(store)[id])]
    {
      var p := store[id];
      CountTrueAll(AllDone(p).w.done);
      verify := p.w.writing == 0;
      if verify {
        StartCheckIsOk(lens, AllDone(p));
      }
      SetWork(id, if verify then StartsCheck(AllDone(p)) else AllDone(p));
    }

    /** fetchWebSeed, once the whole piece is written, or has failed. */
    method EndFetch(id: nat, failed: bool) returns (verify: bool)
      requires Requesting() && id in store && store[id].fetches > 0
      modifies `store
      ensures Requesting()
      ensures var p := old(store)[id];
              var current := !failed && p.index in partials && partials[p.index] == id && !p.w.busy;
              var q := if current then AllDone(FetchEnds(p)) else FetchEnds(p);
              && (verify <==> current && p.w.g.writes == {})
              && store == old(store)[id := if verify then StartsCheck(q) else q]
              && store[id].w.busy == (p.w.busy || verify) && store[id].w.g.writes == p.w.g.writes
              && (current ==> Complete(store[id]) && forall b :: 0 <= b < |store[id].w.done| ==> store[id].w.done[b])
              && (!current ==> store[id].w == p.w)
      ensures store[id].fetches == old(store)[id].fetches - 1 && |store[id].reqs| == |old(store)[id].reqs|
      ensures forall b :: 0 <= b < |store[id].reqs| ==> store[id].reqs[b] == OneLess(old(store)[id].reqs[b])
    {
      ReleaseFetch(id);
      var p := store[id];
      if failed || p.index !in partials || partials[p.index] != id || p.w.busy {
        return false;
      }
      verify := CompleteAll(id);
      Overwrites(old(store), id, p, store[id]);
    }

    /** check, for a piece whose hash is not known yet: it waits for it with all its blocks there. */
    method CheckedWaiting(i: nat, id: nat)
      requires Requesting() && i < |pieces| && i !in partials && !pieces[i].have && id !in store
      modifies `partials, `store
      ensures Requesting() && partials == old(partials)[i := id]
      ensures store == old(store)[id := Waiting(AllDone(NewPartial(i, lens[i], 0, 0)), true)]
      ensures store[id].index == i && store[id].w.waitHashes && !store[id].w.busy && Complete(store[id])
      ensures forall b :: 0 <= b < |store[id].w.done| ==> store[id].w.done[b]
    {
      Begin(i, id, 0, 0);
      var p := store[id];
      var q := Waiting(AllDone(p), true);
      CountTrueAll(q.w.done);
      SetWork(id, q);
      Overwrites(old(store), id, p, q);
    }

    /** The end of check. */
    method EndCheck()
      requires Valid()
      modifies `checking, `doneClosed
      ensures Valid() && !checking && (doneClosed <==> forall i :: 0 <= i < |pieces| ==> !Wanted(pieces[i]))
    {
      checking := false;
      UpdateDone();
      NoneMissing(pieces);
    }

    /** recomputePrioritiesLocked: each piece's priority is the highest of its files', or a Reader's. */
    method RecomputePriorities(files: seq<FileRange>, urgent: seq<int>)
      requires Valid() && |urgent| == |pieces| && forall f :: 0 <= f < |files| ==> files[f].first <= files[f].end <= |pieces|
      modifies `pieces, `missing, `doneClosed
      ensures Valid() && |pieces| == |old(pieces)|
      ensures forall i :: 0 <= i < |pieces| ==>
                && pieces[i] == old(pieces)[i].(prio := pieces[i].prio)
                && IsHighest(files, |files|, i, urgent[i], pieces[i].prio)
    {
      var done, total := Prioritized(files, urgent);
      SameHave(pieces, done);
      pieces, missing := done, total;
      UpdateDone();
    }

    method Prioritized(files: seq<FileRange>, urgent: seq<int>) returns (done: seq<Piece>, total: nat)
      requires |urgent| == |pieces| && forall f :: 0 <= f < |files| ==> files[f].first <= files[f].end <= |pieces|
      ensures |done| == |pieces| && total == CountMissing(done)
      ensures forall i :: 0 <= i < |done| ==>
                done[i] == pieces[i].(prio := done[i].prio) && IsHighest(files, |files|, i, urgent[i], done[i].prio)
    {
      var filePri := FilePriorities(files);
      done, total := [], 0;
      for i := 0 to |pieces|
        invariant |done| == i && total == CountMissing(done)
        invariant forall j :: 0 <= j < i ==>
                    done[j] == pieces[j].(prio := done[j].prio) && IsHighest(files, |files|, j, urgent[j], done[j].prio)
      {
        var ps := pieces[i].(prio := if filePri[i] < urgent[i] then urgent[i] else filePri[i]);
        CountsNext(done, ps);
        if !ps.have && ps.prio > PRIORITY_NONE {
          total := total + 1;
        }
        done := done + [ps];
      }
    }

    method FilePriorities(files: seq<FileRange>) returns (prio: seq<int>)
      requires forall f :: 0 <= f < |files| ==> files[f].first <= files[f].end <= |pieces|
      ensures |prio| == |pieces| && forall i :: 0 <= i < |prio| ==> IsHighest(files, |files|, i, PRIORITY_NONE, prio[i])
    {
      prio := Repeat(|pieces|, PRIORITY_NONE);
      for f := 0 to |files|
        invariant |prio| == |pieces| && forall i :: 0 <= i < |prio| ==> IsHighest(files, f, i, PRIORITY_NONE, prio[i])
      {
        ghost var before := prio;
        for i := files[f].first to files[f].end
          invariant |prio| == |pieces|
          invariant forall j :: 0 <= j < |prio| ==>
                      prio[j] == if files[f].first <= j < i && files[f].prio > before[j] then files[f].prio else before[j]
        {
          if files[f].prio > prio[i] {
            prio := prio[i := files[f].prio];
          }
        }
      }
    }
  }

  lemma {:induction false} NoneHad(s: seq<Piece>)
    requires forall i :: 0 <= i < |s| ==> !s[i].have
    ensures CountHave(s) == 0
  {
    if s != [] {
      NoneHad(s[1..]);
    }
  }

  /** A peer that comes or goes without requests changes no count. */
  lemma SameHolders(lens: seq<nat>, partials: map<nat, nat>, store: map<nat, Partial>, before: map<nat, set<Request>>,
                    after: map<nat, set<Request>>, peer: nat)
    requires forall id :: id in store ==> PartialOk(lens, store[id])
    requires RequestsOk(lens, partials, store, before) && (peer in before ==> before[peer] == {})
    requires after == before[peer := {}] || after == before - {peer}
    ensures RequestsOk(lens, partials, store, after)
  {
    forall i, b | i in partials && partials[i] in store && 0 <= b < |store[partials[i]].reqs|
      ensures ReqOk(lens, store[partials[i]], b, after)
    {
      assert ReqsOk(lens, store[partials[i]], before);
      assert ReqOk(lens, store[partials[i]], b, before);
      HoldersNone(before, peer, BlockRequest(lens, store[partials[i]].index, b));
    }
  }

  /** One more count for a block, with one more holder. */
  lemma MarkKeeps(lens: seq<nat>, pieces: seq<Piece>, partials: map<nat, nat>, store: map<nat, Partial>,
                  marked: map<nat, Partial>, peers: map<nat, set<Request>>, i: nat, b: nat, peer: nat)
    requires StoreOk(lens, pieces, partials, store) && RequestsOk(lens, partials, store, peers)
    requires i in partials && b < |store[partials[i]].reqs| && Askable(store[partials[i]], b)
    requires peer in peers && BlockRequest(lens, i, b) !in peers[peer]
    requires var p := store[partials[i]]; marked == store[partials[i] := p.(reqs := p.reqs[b := p.reqs[b] + 1])]
    ensures IsBlock(lens, BlockRequest(lens, i, b)) && StoreOk(lens, pieces, partials, marked)
    ensures RequestsOk(lens, partials, marked, peers[peer := peers[peer] + {BlockRequest(lens, i, b)}])
  {
    var r := BlockRequest(lens, i, b);
    var more := peers[peer := peers[peer] + {r}];
    BlocksTile(lens, i, b);
    forall j, c | j in partials && 0 <= c < |marked[partials[j]].reqs|
      ensures ReqOk(lens, marked[partials[j]], c, more)
    {
      assert ReqsOk(lens, store[partials[j]], peers);
      assert ReqOk(lens, store[partials[j]], c, peers);
      BlocksTile(lens, j, c);
      HoldersAdd(peers, peer, r, BlockRequest(lens, j, c));
    }
  }

  /** A piece just begun is under way. */
  lemma BegunIsUnderWay(lens: seq<nat>, pieces: seq<Piece>, partials: map<nat, nat>, store: map<nat, Partial>,
                        can: seq<bool>, i: nat, id: nat)
    requires StoreOk(lens, pieces, partials, store) && |can| == |pieces| && i < |can| && can[i]
    ensures UnderWayIn(partials[i := id], store[id := NewPartial(i, lens[i], 0, 0)], can, i)
  {
    assert Free(NewPartial(i, lens[i], 0, 0), 0);
  }

  /** What the piece chosen has for the peer, before it is begun and after. */
  lemma ChosenIsFree(lens: seq<nat>, pieces: seq<Piece>, partials: map<nat, nat>, store: map<nat, Partial>,
                     pending: set<Request>, can: seq<bool>, best: nat, id: nat)
    requires StoreOk(lens, pieces, partials, store) && |can| == |pieces|
    ensures FreeFor(lens, NowUnderWay(partials, can, best, id), WithBegun(lens, partials, store, can, best, id), pending,
                    can, best)
            <==> Offers(lens, partials, pending, can, best) || FreeFor(lens, partials, store, pending, can, best)
    ensures FreeFor(lens, partials, store, pending, can, best) ==> Shareable(lens, partials, store, pending, can, best)
  {
    if Begins(partials, can, best) {
      var p := NewPartial(best, lens[best], 0, 0);
      NewIsOk(lens, best, 0, 0);
      BegunIsUnderWay(lens, pieces, partials, store, can, best, id);
      assert forall b :: 0 <= b < |p.reqs| ==> Free(p, b);
    } else if FreeFor(lens, partials, store, pending, can, best) {
      var p := store[partials[best]];
      var b :| 0 <= b < |p.reqs| && Free(p, b) && BlockRequest(lens, best, b) !in pending;
      assert Askable(p, b);
    }
  }

  /** A piece just begun that has nothing for the peer takes nothing from what can be shared, and adds nothing. */
  lemma BegunIsNotShared(lens: seq<nat>, pieces: seq<Piece>, partials: map<nat, nat>, store: map<nat, Partial>,
                         pending: set<Request>, can: seq<bool>, best: nat, id: nat, i: nat)
    requires StoreOk(lens, pieces, partials, store) && |can| == |pieces| && id !in store
    requires !Offers(lens, partials, pending, can, best)
    ensures var now, with := NowUnderWay(partials, can, best, id), WithBegun(lens, partials, store, can, best, id);
            && (AnyShareable(lens, now, with, pending, can) <==> AnyShareable(lens, partials, store, pending, can))
            && (LeadsShared(lens, pieces, now, with, pending, can, i) ==>
                  LeadsShared(lens, pieces, partials, store, pending, can, i))
  {
    var now, with := NowUnderWay(partials, can, best, id), WithBegun(lens, partials, store, can, best, id);
    forall j: nat
      ensures Shareable(lens, now, with, pending, can, j) <==> Shareable(lens, partials, store, pending, can, j)
    {
      SameShareable(lens, pieces, partials, store, pending, can, best, id, j);
    }
  }

  lemma SameShareable(lens: seq<nat>, pieces: seq<Piece>, partials: map<nat, nat>, store: map<nat, Partial>,
                      pending: set<Request>, can: seq<bool>, best: nat, id: nat, j: nat)
    requires StoreOk(lens, pieces, partials, store) && |can| == |pieces| && id !in store
    requires !Offers(lens, partials, pending, can, best)
    ensures Shareable(lens, NowUnderWay(partials, can, best, id), WithBegun(lens, partials, store, can, best, id), pending,
                      can, j)
            <==> Shareable(lens, partials, store, pending, can, j)
  {
  }

  /** When a peer is asked for nothing: nothing can be shared with it, and nothing is free or the piece chosen is stuck. */
  lemma AsksUnlessStuck(lens: seq<nat>, pieces: seq<Piece>, partials: map<nat, nat>, store: map<nat, Partial>,
                        pending: set<Request>, can: seq<bool>, best: nat)
    requires StoreOk(lens, pieces, partials, store) && |can| == |pieces|
    requires Chosen(pieces, partials, store, can, best) || NothingFree(partials, store, can)
    ensures !Asks(lens, partials, store, pending, can, best) <==>
              && !AnyShareable(lens, partials, store, pending, can)
              && (NothingFree(partials, store, can) || Stuck(lens, partials, store, pending, best))
  {
    if !AnyShareable(lens, partials, store, pending, can) && !NothingFree(partials, store, can) {
      assert !Shareable(lens, partials, store, pending, can, best);
      OffersUnlessStuck(lens, pieces, partials, store, pending, can, best);
    }
  }

  /** Where a peer could be asked for nothing, every piece it has that is wanted is under way, and each block of it has come,
      is asked for of two already, or is outstanding with this peer, unless its hash is waited for. */
  lemma NothingLeftToAsk(lens: seq<nat>, pieces: seq<Piece>, partials: map<nat, nat>, store: map<nat, Partial>,
                         pending: set<Request>, can: seq<bool>, i: nat, b: nat)
    requires StoreOk(lens, pieces, partials, store) && |can| == |pieces| && i < |can| && can[i] && b < BlockCount(lens[i])
    requires !CouldAsk(lens, partials, store, pending, can)
    ensures BlockRequest(lens, i, b) in pending
            || (i in partials && var p := store[partials[i]];
                                 p.w.waitHashes || p.w.done[b] || p.reqs[b] >= MAX_BLOCK_DUPLICATES)
  {
    assert !Offers(lens, partials, pending, can, i) && !Shareable(lens, partials, store, pending, can, i);
    if i in partials {
      assert PartialOk(lens, store[partials[i]]);
      var p := store[partials[i]];
      assert Askable(p, b) || p.w.done[b] || p.reqs[b] >= MAX_BLOCK_DUPLICATES;
    }
  }

  /** A block that another was asked for is shared only where the piece chosen has none left that nobody was. */
  lemma SharedOnlyLast(lens: seq<nat>, pieces: seq<Piece>, partials: map<nat, nat>, store: map<nat, Partial>,
                       pending: set<Request>, can: seq<bool>, best: nat, b: nat)
    requires StoreOk(lens, pieces, partials, store) && |can| == |pieces|
    requires best in partials && best < |can| && can[best] && !FreeFor(lens, partials, store, pending, can, best)
    requires b < BlockCount(lens[best]) && !store[partials[best]].w.waitHashes
    ensures var p := store[partials[best]]; p.w.done[b] || p.reqs[b] > 0 || BlockRequest(lens, best, b) in pending
  {
    var p := store[partials[best]];
    assert PartialOk(lens, p);
    if Free(p, b) {
      assert HasFree(p);
      CountTrueAll(p.w.done);
    }
  }

  lemma OffersUnlessStuck(lens: seq<nat>, pieces: seq<Piece>, partials: map<nat, nat>, store: map<nat, Partial>,
                          pending: set<Request>, can: seq<bool>, i: nat)
    requires StoreOk(lens, pieces, partials, store) && |can| == |pieces|
    requires UnderWayIn(partials, store, can, i) || Begins(partials, can, i)
    requires !Shareable(lens, partials, store, pending, can, i)
    ensures Offers(lens, partials, pending, can, i) <==> !Stuck(lens, partials, store, pending, i)
  {
    if UnderWayIn(partials, store, can, i) {
      var p := store[partials[i]];
      assert forall b :: 0 <= b < |p.reqs| && Free(p, b) ==> Askable(p, b);
    }
  }

  /** So a peer that could be asked for something is asked for nothing exactly if nothing can be shared with it, the piece
      chosen is stuck, and another that could be begun has a block for it. */
  lemma MissesExactly(lens: seq<nat>, pieces: seq<Piece>, partials: map<nat, nat>, store: map<nat, Partial>,
                      pending: set<Request>, can: seq<bool>, best: nat)
    requires StoreOk(lens, pieces, partials, store) && |can| == |pieces|
    requires Chosen(pieces, partials, store, can, best) || NothingFree(partials, store, can)
    ensures CouldAsk(lens, partials, store, pending, can) && !Asks(lens, partials, store, pending, can, best) <==>
              && !AnyShareable(lens, partials, store, pending, can) && Stuck(lens, partials, store, pending, best)
              && exists i: nat :: i != best && Offers(lens, partials, pending, can, i)
  {
    AsksUnlessStuck(lens, pieces, partials, store, pending, can, best);
    if i: nat :| Offers(lens, partials, pending, can, i) {
      assert Begins(partials, can, i);
    }
  }

  /** The code passes over what it could ask for only where the piece it chooses was asked of this very peer before it
      was begun, or begun again, and nobody counts that request. */
  lemma MissesOnlyOnStale(lens: seq<nat>, pieces: seq<Piece>, partials: map<nat, nat>, store: map<nat, Partial>,
                          pending: set<Request>, can: seq<bool>, best: nat)
    requires StoreOk(lens, pieces, partials, store) && |can| == |pieces|
    requires Chosen(pieces, partials, store, can, best) || NothingFree(partials, store, can)
    requires CouldAsk(lens, partials, store, pending, can) && !Asks(lens, partials, store, pending, can, best)
    ensures exists r :: r in pending && r.index == best && Stale(partials, store, r)
  {
    var other: nat :| Offers(lens, partials, pending, can, other);
    assert Begins(partials, can, other);
    var b := FirstStale(lens, pieces, partials, store, pending, can, best);
    BlocksTile(lens, best, b);
  }

  /** A free block of the piece, which the peer has outstanding already. */
  lemma FirstStale(lens: seq<nat>, pieces: seq<Piece>, partials: map<nat, nat>, store: map<nat, Partial>,
                   pending: set<Request>, can: seq<bool>, i: nat) returns (b: nat)
    requires StoreOk(lens, pieces, partials, store) && |can| == |pieces|
    requires UnderWayIn(partials, store, can, i) || Begins(partials, can, i)
    requires !Offers(lens, partials, pending, can, i) && !Shareable(lens, partials, store, pending, can, i)
    ensures b < BlockCount(lens[i]) && BlockRequest(lens, i, b) in pending
    ensures i in partials ==> Free(store[partials[i]], b)
  {
    if UnderWayIn(partials, store, can, i) {
      var p := store[partials[i]];
      var c :| 0 <= c < |p.reqs| && Free(p, c);
      assert Askable(p, c);
      b := c;
    } else {
      b := 0;
    }
  }

  /** A request that no piece under way counts, for a block that has not come. */
  predicate Stale(partials: map<nat, nat>, store: map<nat, Partial>, r: Request) {
    r.index in partials && partials[r.index] in store ==>
      var p, b := store[partials[r.index]], r.begin / BLOCK_SIZE;
      b < |p.reqs| == |p.w.done| && Free(p, b)
  }

  lemma Overwrites(store: map<nat, Partial>, id: nat, p: Partial, q: Partial)
    ensures store[id := p][id := q] == store[id := q]
  {
  }

  lemma WorkKeeps(lens: seq<nat>, pieces: seq<Piece>, partials: map<nat, nat>, store: map<nat, Partial>,
                  peers: map<nat, set<Request>>, id: nat, q: Partial)
    requires StoreOk(lens, pieces, partials, store) && RequestsOk(lens, partials, store, peers)
    requires id in store && PartialOk(lens, q)
    requires q.index == store[id].index && q.reqs == store[id].reqs && q.fetches == store[id].fetches
    ensures StoreOk(lens, pieces, partials, store[id := q]) && RequestsOk(lens, partials, store[id := q], peers)
  {
    var after := store[id := q];
    forall i, b | i in partials && 0 <= b < |after[partials[i]].reqs|
      ensures ReqOk(lens, after[partials[i]], b, peers)
    {
      assert ReqsOk(lens, store[partials[i]], peers);
      assert ReqOk(lens, store[partials[i]], b, peers);
    }
  }

  /** A block the piece still wants, while no check of it runs. */
  predicate Takes(p: Partial, b: nat) { b < |p.w.done| && !p.w.done[b] && !p.w.busy }

  /** Those of `who`, and nobody else, no longer have the request outstanding. */
  ghost predicate Without(before: map<nat, set<Request>>, after: map<nat, set<Request>>, who: set<nat>, r: Request) {
    && after.Keys == before.Keys
    && forall p :: p in before ==> after[p] == if p in who then before[p] - {r} else before[p]
  }

  lemma WithoutAll(before: map<nat, set<Request>>, left: map<nat, set<Request>>, after: map<nat, set<Request>>,
                   peer: nat, r: Request)
    requires Without(before, left, {peer}, r) && Without(left, after, left.Keys, r)
    ensures Without(before, after, before.Keys, r)
  {
  }

  /** Counts of requests aside, nothing has changed. */
  ghost predicate SameWork(before: map<nat, Partial>, after: map<nat, Partial>) {
    before.Keys == after.Keys && forall x :: x in before ==> after[x] == before[x].(reqs := after[x].reqs)
  }

  lemma SameWorkThrough(a: map<nat, Partial>, was: map<nat, Partial>, after: map<nat, Partial>, id: nat, b: nat,
                        taken: bool)
    requires SameWork(a, was) && (!taken ==> after == was)
    requires taken ==> id in was && b < |was[id].w.done| && SameWork(was[id := Received(was[id], b)], after)
    ensures taken ==> id in a && b < |a[id].w.done| && SameWork(a[id := Received(a[id], b)], after)
    ensures !taken ==> SameWork(a, after)
  {
  }

  /** A block that had not come has, and is being written; nothing else is different. */
  predicate BlockCame(was: Work, now: Work, b: nat)
    requires b < |was.done|
  {
    && |now.done| == |was.done| && !was.done[b] && now.done[b] && now.count == was.count + 1
    && (forall k :: 0 <= k < |now.done| && k != b ==> now.done[k] == was.done[k])
    && now.g.writes == was.g.writes + {b} && b !in was.g.writes && now.writing == was.writing + 1
    && now.busy == was.busy && now.waitHashes == was.waitHashes && now.g.checks == was.g.checks
  }

  /** A block has come, and is being written. */
  function Received(p: Partial, b: nat): Partial
    requires b < |p.w.done|
  {
    p.(w := p.w.(done := p.w.done[b := true], count := p.w.count + 1, writing := p.w.writing + 1,
                 g := p.w.g.(writes := p.w.g.writes + {b})))
  }

  lemma TakenCame(lens: seq<nat>, before: map<nat, Partial>, after: map<nat, Partial>, id: nat, b: nat)
    requires id in before && PartialOk(lens, before[id]) && Takes(before[id], b)
    requires b < |before[id].w.done| && SameWork(before[id := Received(before[id], b)], after)
    ensures id in after && BlockCame(before[id].w, after[id].w, b)
  {
    assert id in before[id := Received(before[id], b)];
  }

  lemma ReceivedIsOk(lens: seq<nat>, p: Partial, b: nat)
    requires PartialOk(lens, p) && b < |p.w.done| && !p.w.done[b] && !p.w.busy
    ensures PartialOk(lens, Received(p, b))
  {
    CountTrueUpdate(p.w.done, b, true);
  }

  /** A write ends; a block whose write failed has not come after all. */
  function WriteEnds(p: Partial, b: nat, failed: bool): Partial
    requires b < |p.w.done|
  {
    var w := p.w.(writing := p.w.writing - 1, g := p.w.g.(writes := p.w.g.writes - {b}));
    p.(w := if failed then w.(done := p.w.done[b := false], count := p.w.count - 1) else w)
  }

  lemma WrittenIsOk(lens: seq<nat>, p: Partial, b: nat, failed: bool)
    requires PartialOk(lens, p) && b in p.w.g.writes
    ensures b < |p.w.done| && PartialOk(lens, WriteEnds(p, b, failed))
  {
    assert p.w.g.writes == p.w.g.writes - {b} + {b};
    CountTrueUpdate(p.w.done, b, false);
  }

  function StartsCheck(p: Partial): Partial { p.(w := p.w.(busy := true, g := p.w.g.(checks := p.w.g.checks + 1))) }

  lemma StartCheckIsOk(lens: seq<nat>, p: Partial)
    requires PartialOk(lens, p) && Complete(p) && p.w.writing == 0 && !p.w.busy
    ensures PartialOk(lens, StartsCheck(p)) && p.w.g.writes == {}
  {
  }

  lemma HadKeeps(lens: seq<nat>, pieces: seq<Piece>, partials: map<nat, nat>, store: map<nat, Partial>,
                 peers: map<nat, set<Request>>, i: nat)
    requires StoreOk(lens, pieces, partials, store) && RequestsOk(lens, partials, store, peers) && i < |pieces|
    ensures StoreOk(lens, pieces[i := pieces[i].(have := true)], partials - {i}, store)
    ensures RequestsOk(lens, partials - {i}, store, peers) && (i !in partials ==> partials - {i} == partials)
  {
  }

  /** A fetch that ends takes its counts with it. */
  lemma FetchKeeps(lens: seq<nat>, pieces: seq<Piece>, partials: map<nat, nat>, store: map<nat, Partial>,
                   peers: map<nat, set<Request>>, id: nat)
    requires StoreOk(lens, pieces, partials, store) && RequestsOk(lens, partials, store, peers)
    requires id in store && store[id].fetches > 0
    ensures var after := store[id := FetchEnds(store[id])];
            StoreOk(lens, pieces, partials, after) && RequestsOk(lens, partials, after, peers)
  {
    var after := store[id := FetchEnds(store[id])];
    forall i, b | i in partials && 0 <= b < |after[partials[i]].reqs|
      ensures ReqOk(lens, after[partials[i]], b, peers)
    {
      assert ReqsOk(lens, store[partials[i]], peers);
      assert ReqOk(lens, store[partials[i]], b, peers);
    }
  }

  lemma {:induction false} SameHave(a: seq<Piece>, b: seq<Piece>)
    requires |a| == |b| && forall i :: 0 <= i < |a| ==> a[i].have == b[i].have
    ensures CountHave(a) == CountHave(b)
  {
    if a != [] {
      SameHave(a[1..], b[1..]);
    }
  }

  lemma {:induction false} NoneMissing(s: seq<Piece>)
    ensures CountMissing(s) == 0 <==> forall i :: 0 <= i < |s| ==> !Wanted(s[i])
  {
    if s != [] {
      NoneMissing(s[1..]);
      assert forall i :: 0 < i < |s| ==> s[i] == s[1..][i - 1];
    }
  }

  lemma NewIsOk(lens: seq<nat>, i: nat, reqs: nat, fetches: nat)
    requires i < |lens|
    ensures PartialOk(lens, NewPartial(i, lens[i], reqs, fetches))
  {
    CountTrueAll(Repeat(BlockCount(lens[i]), false));
  }

  /** A piece begun, with as many counts as fetches begun for it. */
  lemma StartKeeps(lens: seq<nat>, pieces: seq<Piece>, partials: map<nat, nat>, store: map<nat, Partial>,
                   peers: map<nat, set<Request>>, i: nat, id: nat, reqs: nat, fetches: nat)
    requires StoreOk(lens, pieces, partials, store) && RequestsOk(lens, partials, store, peers)
    requires i < |lens| && !pieces[i].have && id !in store && reqs <= fetches <= 1
    ensures var s, ps := store[id := NewPartial(i, lens[i], reqs, fetches)], partials[i := id];
            StoreOk(lens, pieces, ps, s) && RequestsOk(lens, ps, s, peers)
  {
    NewIsOk(lens, i, reqs, fetches);
  }

  /** That block of that piece counts one request less, if it is under way and counts any; nothing else has changed. */
  ghost predicate LessAt(partials: map<nat, nat>, before: map<nat, Partial>, after: map<nat, Partial>, i: nat, b: nat) {
    && SameWork(before, after)
    && (forall id :: id in before && !(i in partials && id == partials[i]) ==> after[id] == before[id])
    && (i in partials && partials[i] in before ==>
          var was, now := before[partials[i]].reqs, after[partials[i]].reqs;
          |now| == |was| && forall c :: 0 <= c < |was| ==> now[c] == if c == b && was[c] > 0 then was[c] - 1 else was[c])
  }

  /** Each block of a piece under way counts one less for a request in `gone`, if it counted any. */
  ghost predicate Uncounted(lens: seq<nat>, partials: map<nat, nat>, before: map<nat, Partial>, after: map<nat, Partial>,
                            gone: set<Request>)
  {
    && SameWork(before, after)
    && (forall id :: id in before && id !in partials.Values ==> after[id] == before[id])
    && forall i :: i in partials && partials[i] in before ==>
                     LessFor(lens, i, before[partials[i]].reqs, after[partials[i]].reqs, gone)
  }

  ghost predicate LessFor(lens: seq<nat>, i: nat, before: seq<nat>, after: seq<nat>, gone: set<Request>) {
    && |after| == |before| && i < |lens| && |before| <= BlockCount(lens[i])
    && forall b :: 0 <= b < |before| ==>
                     after[b] == if BlockRequest(lens, i, b) in gone && before[b] > 0 then before[b] - 1 else before[b]
  }

  /** Counts of requests alone change, as many as there were. */
  lemma ReqsOnly(lens: seq<nat>, pieces: seq<Piece>, partials: map<nat, nat>, before: map<nat, Partial>,
                 after: map<nat, Partial>, id: nat, reqs: seq<nat>)
    requires StoreOk(lens, pieces, partials, before) && id in before && |reqs| == |before[id].reqs|
    requires after == before[id := before[id].(reqs := reqs)]
    ensures StoreOk(lens, pieces, partials, after) && SameWork(before, after)
  {
    assert after.Keys == before.Keys;
  }

  lemma ReleasedIsLess(partials: map<nat, nat>, before: map<nat, Partial>, after: map<nat, Partial>, i: nat, b: nat)
    requires SameWork(before, after) && i in partials && partials[i] in before
    requires var p := before[partials[i]];
             b < |p.reqs| && p.reqs[b] > 0 && after == before[partials[i] := p.(reqs := p.reqs[b := p.reqs[b] - 1])]
    ensures LessAt(partials, before, after, i, b)
  {
  }

  lemma LessAtIsUncounted(lens: seq<nat>, pieces: seq<Piece>, partials: map<nat, nat>, before: map<nat, Partial>,
                          after: map<nat, Partial>, r: Request)
    requires StoreOk(lens, pieces, partials, before) && IsBlock(lens, r)
    requires LessAt(partials, before, after, r.index, r.begin / BLOCK_SIZE)
    ensures Uncounted(lens, partials, before, after, {r})
  {
    forall i | i in partials && partials[i] in before
      ensures LessFor(lens, i, before[partials[i]].reqs, after[partials[i]].reqs, {r})
    {
      forall b | 0 <= b < |before[partials[i]].reqs|
        ensures BlockRequest(lens, i, b) == r <==> i == r.index && b == r.begin / BLOCK_SIZE
      {
        BlocksTile(lens, i, b);
      }
    }
  }

  lemma OneUncounted(lens: seq<nat>, partials: map<nat, nat>, before: map<nat, Partial>, store: map<nat, Partial>,
                     after: map<nat, Partial>, gone: set<Request>, r: Request)
    requires Uncounted(lens, partials, before, store, gone) && Uncounted(lens, partials, store, after, {r}) && r !in gone
    ensures Uncounted(lens, partials, before, after, gone + {r})
  {
  }

  /** Releasing a block's request undoes asking for it. */
  lemma ReleaseUndoesAsk(lens: seq<nat>, pieces: seq<Piece>, partials: map<nat, nat>, store: map<nat, Partial>,
                         asked: map<nat, Partial>, released: map<nat, Partial>, r: Request)
    requires StoreOk(lens, pieces, partials, store) && IsBlock(lens, r) && r.index in partials
    requires OneMore(store, asked, partials[r.index], r.begin / BLOCK_SIZE)
    requires LessAt(partials, asked, released, r.index, r.begin / BLOCK_SIZE)
    ensures released == store
  {
    var id := partials[r.index];
    assert released[id].reqs == store[id].reqs;
    forall x | x in store
      ensures released[x] == store[x]
    {
    }
  }

  /** A request dropped and released keeps every count within its holders. */
  lemma ReleaseKeeps(lens: seq<nat>, pieces: seq<Piece>, partials: map<nat, nat>, store: map<nat, Partial>,
                     after: map<nat, Partial>, peers: map<nat, set<Request>>, peer: nat, r: Request)
    requires StoreOk(lens, pieces, partials, store) && StoreOk(lens, pieces, partials, after)
    requires PendingOk(lens, peers) && RequestsOk(lens, partials, store, peers)
    requires peer in peers && r in peers[peer] && Uncounted(lens, partials, store, after, {r})
    ensures PendingOk(lens, peers[peer := peers[peer] - {r}])
    ensures RequestsOk(lens, partials, after, peers[peer := peers[peer] - {r}])
  {
    forall i | i in partials
      ensures ReqsOk(lens, after[partials[i]], peers[peer := peers[peer] - {r}])
    {
      ReleaseOneKeeps(lens, store[partials[i]], after[partials[i]], peers, peer, r);
    }
  }

  lemma GiveBackKeeps(lens: seq<nat>, pieces: seq<Piece>, partials: map<nat, nat>, store: map<nat, Partial>,
                      after: map<nat, Partial>, peers: map<nat, set<Request>>, more: map<nat, set<Request>>, peer: nat,
                      r: Request)
    requires StoreOk(lens, pieces, partials, store) && StoreOk(lens, pieces, partials, after)
    requires PendingOk(lens, peers) && peer in peers && r !in peers[peer] && IsBlock(lens, r)
    requires more == peers[peer := peers[peer] + {r}] && RequestsOk(lens, partials, store, more)
    requires Uncounted(lens, partials, store, after, {r})
    ensures RequestsOk(lens, partials, after, peers)
  {
    ReleaseKeeps(lens, pieces, partials, store, after, more, peer, r);
    assert more[peer := more[peer] - {r}] == peers by {
      assert more[peer] - {r} == peers[peer];
    }
  }

  lemma ReleaseOneKeeps(lens: seq<nat>, p: Partial, q: Partial, peers: map<nat, set<Request>>, peer: nat, r: Request)
    requires PartialOk(lens, p) && PartialOk(lens, q) && ReqsOk(lens, p, peers) && peer in peers && r in peers[peer]
    requires q == p.(reqs := q.reqs) && LessFor(lens, p.index, p.reqs, q.reqs, {r})
    ensures ReqsOk(lens, q, peers[peer := peers[peer] - {r}])
  {
    var less := peers[peer := peers[peer] - {r}];
    forall b | 0 <= b < |q.reqs|
      ensures ReqOk(lens, q, b, less)
    {
      assert ReqOk(lens, p, b, peers);
      HoldersDrop(peers, peer, r, BlockRequest(lens, p.index, b));
    }
  }
}
