/** What is committed in the buffer pool, and what the targets stand for, over any steps of its callers. */
module PoolCounts {
  import opened BufferPool
  import opened PoolSteps

  // ---- Sums over what is under way.

  /** What to count of the calls: what each will take back under the budget `b`, or all that is under way. */
  datatype What = Refusable(b: int) | UnderWay

  function Share(c: Call, w: What): nat {
    match c
    case Added(i, v) => if w.UnderWay? || v > w.b then ClassSize(i) else 0
    case Passed(i) => if w.UnderWay? then ClassSize(i) else 0
    case Refused(i) => ClassSize(i)
    case Over => 0
  }

  function Sum(calls: seq<Call>, w: What): nat {
    if calls == [] then 0 else Sum(calls[..|calls| - 1], w) + Share(calls[|calls| - 1], w)
  }

  lemma {:induction false} SumUpdate(calls: seq<Call>, k: nat, c: Call, w: What)
    requires k < |calls|
    ensures Sum(calls[k := c], w) == Sum(calls, w) - Share(calls[k], w) + Share(c, w)
  {
    var last := |calls| - 1;
    if k == last {
      assert calls[k := c][..last] == calls[..last];
    } else {
      SumUpdate(calls[..last], k, c, w);
      assert calls[k := c][..last] == calls[..last][k := c];
    }
  }

  lemma SumMore(calls: seq<Call>, c: Call, w: What)
    ensures Sum(calls + [c], w) == Sum(calls, w) + Share(c, w)
  {
    assert (calls + [c])[..|calls|] == calls;
  }

  lemma {:induction false} SumNone(calls: seq<Call>, w: What)
    requires forall k :: 0 <= k < |calls| ==> calls[k].Over?
    ensures Sum(calls, w) == 0
  {
    if calls != [] {
      SumNone(calls[..|calls| - 1], w);
    }
  }

  /** What a burst has moved its target by and has not counted yet. */
  function Due(b: Burst): int { if b.Moved? then b.d * ClassSize(b.i) else 0 }

  function Owed(bursts: seq<Burst>): int {
    if bursts == [] then 0 else Owed(bursts[..|bursts| - 1]) + Due(bursts[|bursts| - 1])
  }

  lemma {:induction false} OwedUpdate(bursts: seq<Burst>, k: nat, b: Burst)
    requires k < |bursts|
    ensures Owed(bursts[k := b]) == Owed(bursts) - Due(bursts[k]) + Due(b)
  {
    var last := |bursts| - 1;
    if k == last {
      assert bursts[k := b][..last] == bursts[..last];
    } else {
      OwedUpdate(bursts[..last], k, b);
      assert bursts[k := b][..last] == bursts[..last][k := b];
    }
  }

  lemma OwedMore(bursts: seq<Burst>, b: Burst)
    ensures Owed(bursts + [b]) == Owed(bursts) + Due(b)
  {
    assert (bursts + [b])[..|bursts|] == bursts;
  }

  lemma {:induction false} OwedNone(bursts: seq<Burst>)
    requires forall k :: 0 <= k < |bursts| ==> !bursts[k].Moved?
    ensures Owed(bursts) == 0
  {
    if bursts != [] {
      OwedNone(bursts[..|bursts| - 1]);
    }
  }

  // ---- Products.

  lemma Signed(d: int, i: nat)
    ensures d <= 0 ==> d * ClassSize(i) <= 0
    ensures d >= 1 ==> d * ClassSize(i) >= 64
  {
    var size := ClassSize(i);
    assert size >= 64;
    if d >= 1 {
      assert d * size >= size;
    } else {
      assert (-d) * size >= 0;
      assert d * size == -((-d) * size);
    }
  }

  // ---- What is committed.

  /** What will be left committed of what is now. */
  function Net(s: State): int { s.committed - Sum(s.calls, Refusable(s.budget)) + Owed(s.bursts) }

  /** What is committed beyond the targets, once what is under way has been counted and what a trim has taken off has
      been given back. */
  function Lost(s: State): int
    requires Sound(s)
  {
    s.committed + Owed(s.bursts) - Cost(s.c.target) - Sum(s.calls, UnderWay) - Taking(s.trim)
  }

  function Taking(trim: Trim): nat { if trim.Taken? && trim.left > 0 then ClassSize(trim.left - 1) else 0 }

  /** What a trim's store is about to write over: the raises since it loaded the target, less what has come off it. */
  function WrittenOver(s: State, a: Action): int
    requires Sound(s)
  {
    if a.TrimStep? && s.trim.Loaded? && s.trim.t > 0
    then (s.c.target[s.trim.left - 1] - s.trim.t) * ClassSize(s.trim.left - 1) else 0
  }

  /** What no target stands for changes exactly where a trim stores over a target that has moved since it loaded it, by
      as much as it has moved. */
  lemma OnlyRacesLose(s: State, a: Action)
    requires Sound(s) && Enabled(s, a)
    ensures Sound(Apply(s, a)) && Lost(Apply(s, a)) == Lost(s) + WrittenOver(s, a)
  {
    StepFits(s, a);
    match a {
      case TrimStep => TrimLoses(s);
      case BurstStep(k) => BurstLosesNothing(s, k);
      case Notice(i) => OwedMore(s.bursts, Won(i));
      case Aim(k, h) => OwedUpdate(s.bursts, k, Aims(s.bursts[k].i, h));
      case _ => CallsLoseNothing(s, a);
    }
  }

  lemma CallsLoseNothing(s: State, a: Action)
    requires Sound(s) && Enabled(s, a) && Sound(Apply(s, a))
    requires !a.TrimStep? && !a.BurstStep? && !a.Notice? && !a.Aim?
    ensures Lost(Apply(s, a)) == Lost(s)
  {
    match a {
      case Begin(i) => SumMore(s.calls, Added(i, s.committed + ClassSize(i)), UnderWay);
      case Check(k) => SumUpdate(s.calls, k, Apply(s, a).calls[k], UnderWay);
      case Finish(k) => FinishLosesNothing(s, k);
      case _ =>
    }
  }

  lemma FinishLosesNothing(s: State, k: nat)
    requires Sound(s) && Enabled(s, Finish(k)) && Sound(Apply(s, Finish(k)))
    ensures Lost(Apply(s, Finish(k))) == Lost(s)
  {
    SumUpdate(s.calls, k, Over, UnderWay);
    CostMore(s.c.target, s.calls[k].i);
  }

  lemma BurstLosesNothing(s: State, k: nat)
    requires Sound(s) && Enabled(s, BurstStep(k)) && Sound(Refilled(s, k))
    ensures Lost(Refilled(s, k)) == Lost(s)
  {
    OwedUpdate(s.bursts, k, Refilled(s, k).bursts[k]);
    if s.bursts[k].Aims? {
      CostUpdate(s.c.target, s.bursts[k].i, s.bursts[k].h);
    }
  }

  lemma TrimLoses(s: State)
    requires Sound(s) && Enabled(s, TrimStep) && Sound(Trimmed(s))
    ensures Lost(Trimmed(s)) == Lost(s) + WrittenOver(s, TrimStep)
  {
    if s.trim.Loaded? {
      LoadedLoses(s);
    } else {
      OtherTrimLosesNothing(s);
    }
  }

  lemma OtherTrimLosesNothing(s: State)
    requires Sound(s) && Enabled(s, TrimStep) && !s.trim.Loaded? && Sound(Trimmed(s))
    ensures Lost(Trimmed(s)) == Lost(s)
  {
    var t := Trimmed(s);
    if s.trim.Taken? {
      assert t == s.(committed := s.committed - Taking(s.trim), trim := At(s.trim.left));
    }
    SameLost(s, t);
  }

  lemma SameLost(s: State, t: State)
    requires Sound(s) && Sound(t) && t.bursts == s.bursts && t.calls == s.calls && t.c.target == s.c.target
    requires t.committed - Taking(t.trim) == s.committed - Taking(s.trim)
    ensures Lost(t) == Lost(s)
  {
  }

  lemma LoadedLoses(s: State)
    requires Sound(s) && s.trim.Loaded? && Sound(Trimmed(s))
    ensures Lost(Trimmed(s)) == Lost(s) + WrittenOver(s, TrimStep)
  {
    if s.trim.t > 0 {
      StoreLoses(s.c.target, s.trim.left - 1, s.trim.t);
      StoredLoses(s, Trimmed(s), WrittenOver(s, TrimStep));
    } else {
      SameLost(s, Trimmed(s));
    }
  }

  lemma StoredLoses(s: State, t: State, over: int)
    requires Sound(s) && Sound(t) && s.trim.Loaded? && t.bursts == s.bursts && t.calls == s.calls
    requires t.committed == s.committed && t.trim == Taken(s.trim.left)
    requires Cost(t.c.target) + ClassSize(s.trim.left - 1) == Cost(s.c.target) - over
    ensures Lost(t) == Lost(s) + over
  {
  }

  lemma StoreLoses(target: seq<nat>, i: nat, t: nat)
    requires i < |target| && t > 0
    ensures Cost(target[i := t - 1]) + ClassSize(i) == Cost(target) - (target[i] - t) * ClassSize(i)
  {
    CostUpdate(target, i, t - 1);
    var size, more := ClassSize(i), target[i] - t;
    calc {
      (t - 1 - target[i]) * size;
      (-more - 1) * size;
      -(more * size) - size;
    }
  }

  /** At a rest what is committed is what the targets stand for and what was lost. */
  lemma RestIsNet(s: State)
    requires Sound(s) && AtRest(s)
    ensures s.committed == Cost(s.c.target) + Lost(s) == Net(s)
  {
    SumNone(s.calls, UnderWay);
    SumNone(s.calls, Refusable(s.budget));
    OwedNone(s.bursts);
  }

  lemma {:induction false} NothingLostAtFirst(s: State)
    requires Init(s)
    ensures Sound(s) && Lost(s) == 0
  {
    CostNone(s.c.target);
  }

  /** What trims have written over in a run. */
  function WrittenInAll(s: State, run: seq<Action>): int
    requires Sound(s)
  {
    if run == [] then 0 else
    var before, a := After(s, run[..|run| - 1]), run[|run| - 1];
    WrittenInAll(s, run[..|run| - 1]) + if Enabled(before, a) then WrittenOver(before, a) else 0
  }

  lemma {:induction false} RunLoses(s: State, run: seq<Action>)
    requires Sound(s)
    ensures Lost(After(s, run)) == Lost(s) + WrittenInAll(s, run)
  {
    if run != [] {
      var before, a := After(s, run[..|run| - 1]), run[|run| - 1];
      RunLoses(s, run[..|run| - 1]);
      if Enabled(before, a) {
        OnlyRacesLose(before, a);
      }
    }
  }

  /** In every run what is committed at a rest is what the targets stand for and what trims have written over. */
  lemma RestIsAccounted(s: State, run: seq<Action>)
    requires Init(s) && Sound(s) && AtRest(After(s, run))
    ensures After(s, run).committed == Cost(After(s, run).c.target) + WrittenInAll(s, run)
  {
    NothingLostAtFirst(s);
    RunLoses(s, run);
    RestIsNet(After(s, run));
  }

  // ---- What a part of the classes stands for.

  lemma CostOfFirst(target: seq<nat>, left: nat)
    requires 0 < left <= |target|
    ensures Cost(target[..left]) == Cost(target[..left - 1]) + target[left - 1] * ClassSize(left - 1)
  {
    assert target[..left][..left - 1] == target[..left - 1];
  }

  /** A class's target moved, and with it what the first classes stand for, if it is one of them. */
  lemma CostMoved(target: seq<nat>, i: nat, v: nat, left: nat)
    requires i < |target| && left <= |target|
    ensures Cost(target[i := v][..left]) == Cost(target[..left]) + if i < left then (v - target[i]) * ClassSize(i) else 0
  {
    if i < left {
      CostUpdate(target[..left], i, v);
      assert target[i := v][..left] == target[..left][i := v];
    } else {
      assert target[i := v][..left] == target[..left];
    }
  }

  lemma CostOfOne(target: seq<nat>, i: nat)
    requires i < |target|
    ensures Cost(target) >= target[i] * ClassSize(i)
  {
    CostUpdate(target, i, 0);
    assert (0 - target[i]) * ClassSize(i) == -(target[i] * ClassSize(i));
  }

  lemma {:induction false} CostGrows(a: seq<nat>, b: seq<nat>)
    requires |a| == |b| && forall i :: 0 <= i < |a| ==> a[i] <= b[i]
    ensures Cost(a) <= Cost(b)
  {
    if a != [] {
      var last := |a| - 1;
      CostGrows(a[..last], b[..last]);
      var size, d := ClassSize(last), b[last] - a[last];
      assert b[last] * size == a[last] * size + d * size;
      assert d * size >= 0;
    }
  }
}
