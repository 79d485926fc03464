/** When SetRetainedBytes bounds what the buffer pool has committed, with its callers at once. */
module PoolBudget {
  import opened BufferPool
  import opened PoolSteps
  import opened PoolCounts
  import opened PoolRuns

  /** No burst under way has loaded anything to aim at. */
  predicate NoneAims(bursts: seq<Burst>) { forall k :: 0 <= k < |bursts| && bursts[k].Aims? ==> bursts[k].h == 0 }

  /** None has raised a target without having counted it. */
  predicate NoneRaised(bursts: seq<Burst>) { forall k :: 0 <= k < |bursts| && bursts[k].Moved? ==> bursts[k].d <= 0 }

  lemma {:induction false} RaisedOweNothing(bursts: seq<Burst>)
    requires NoneRaised(bursts)
    ensures Owed(bursts) <= 0
  {
    if bursts != [] {
      var last := bursts[|bursts| - 1];
      RaisedOweNothing(bursts[..|bursts| - 1]);
      if last.Moved? {
        Signed(last.d, last.i);
      }
    }
  }

  // ---- A bound that every step keeps.

  /** The classes still to be looked at. */
  function Part(trim: Trim): nat
    requires TrimFits(trim)
  {
    match trim
    case Off => 0
    case Stored => NUM_CLASSES
    case At(left) => left
    case Seen(left, _) => left
    case Above(left) => left
    case Taken(left) => left
    case _ => trim.left - 1
  }

  /** What has been loaded of a target, or taken off one and not yet given back. */
  function InHand(trim: Trim): nat
    requires TrimFits(trim)
  {
    match trim
    case Loaded(left, t) => t * ClassSize(left - 1)
    case Taken(left) => ClassSize(left - 1)
    case _ => 0
  }

  /** What the trim can still give back. */
  function Givable(trim: Trim, target: seq<nat>): nat
    requires TrimFits(trim) && |target| == NUM_CLASSES
  {
    Cost(target[..Part(trim)]) + InHand(trim)
  }

  /** Giving all of that back brings what is committed within the budget. */
  predicate Within(s: State)
    requires Sound(s)
  {
    && NoneRaised(s.bursts) && Net(s) <= s.budget + Givable(s.trim, s.c.target)
    && (s.trim.Seen? && s.trim.c <= s.budget ==> Net(s) <= s.budget)
  }

  lemma NetIsLess(s: State)
    requires NoneRaised(s.bursts)
    ensures Net(s) <= s.committed
  {
    RaisedOweNothing(s.bursts);
  }

  lemma TrimKeeps(s: State)
    requires Sound(s) && Within(s) && Enabled(s, TrimStep) && Sound(Trimmed(s))
    ensures Within(Trimmed(s))
  {
    NetIsLess(s);
    match s.trim {
      case Stored => assert s.c.target[..NUM_CLASSES] == s.c.target;
      case Seen(left, _) => CostOfFirst(s.c.target, left);
      case Above(left) => CostOfFirst(s.c.target, left);
      case Loaded(left, t) => LoadedKeeps(s);
      case _ =>
    }
  }

  lemma LoadedKeeps(s: State)
    requires Sound(s) && Within(s) && s.trim.Loaded? && Sound(Trimmed(s))
    ensures Within(Trimmed(s))
  {
    LoadedGives(s.c.target, s.trim.left, s.trim.t);
    StoreKeeps(s, Trimmed(s));
  }

  lemma LoadedGives(target: seq<nat>, left: nat, t: nat)
    requires |target| == NUM_CLASSES && 0 < left <= NUM_CLASSES
    ensures t == 0 ==> Givable(Lowered(left), target) == Givable(Loaded(left, t), target)
    ensures t > 0 ==> Givable(Taken(left), target[left - 1 := t - 1]) == Givable(Loaded(left, t), target)
  {
    if t > 0 {
      StoreGives(target, left, t);
    }
  }

  lemma StoreKeeps(s: State, t: State)
    requires Sound(s) && Within(s) && Sound(t) && !t.trim.Seen?
    requires Givable(t.trim, t.c.target) == Givable(s.trim, s.c.target)
    requires t == s.(c := s.c.(target := t.c.target), trim := t.trim)
    ensures Within(t)
  {
  }

  lemma StoreGives(target: seq<nat>, left: nat, t: nat)
    requires 0 < left <= |target| && 0 < t
    ensures Cost(target[left - 1 := t - 1][..left]) + ClassSize(left - 1)
            == Cost(target[..left - 1]) + t * ClassSize(left - 1)
  {
    var after, size := target[left - 1 := t - 1], ClassSize(left - 1);
    CostOfFirst(after, left);
    assert after[..left - 1] == target[..left - 1];
    calc {
      (t - 1) * size + size;
      t * size;
    }
  }

  /** Where a target moves, what the trim can give back moves as much or not at all. */
  lemma GivableMoves(trim: Trim, target: seq<nat>, i: nat, v: nat)
    requires TrimFits(trim) && |target| == NUM_CLASSES && i < NUM_CLASSES
    ensures Givable(trim, target[i := v]) - Givable(trim, target) in {0, (v - target[i]) * ClassSize(i)}
  {
    CostMoved(target, i, v, Part(trim));
  }

  lemma CallKeeps(s: State, a: Action)
    requires Sound(s) && Within(s) && Enabled(s, a) && (a.Begin? || a.Check? || a.Finish?) && Sound(Apply(s, a))
    ensures Within(Apply(s, a))
  {
    match a {
      case Begin(i) => BeginKeeps(s, Apply(s, a), i);
      case Check(k) => CheckKeeps(s, Apply(s, a), k);
      case Finish(k) => FinishKeeps(s, k);
    }
  }

  lemma BeginKeeps(s: State, t: State, i: nat)
    requires Sound(s) && Within(s) && Sound(t) && t == s.(committed := s.committed + ClassSize(i), calls := t.calls)
    requires t.calls == s.calls + [Added(i, t.committed)]
    ensures Within(t)
  {
    NetIsLess(s);
    SumMore(s.calls, Added(i, t.committed), Refusable(s.budget));
    assert t.committed > s.budget ==> Net(t) == Net(s);
    assert t.committed <= s.budget ==> Net(t) <= s.budget;
  }

  lemma CheckKeeps(s: State, t: State, k: nat)
    requires Sound(s) && Within(s) && Sound(t) && Enabled(s, Check(k)) && t == s.(calls := t.calls)
    requires var i := s.calls[k].i; t.calls == s.calls[k := if s.calls[k].v > s.budget then Refused(i) else Passed(i)]
    ensures Within(t)
  {
    SumUpdate(s.calls, k, t.calls[k], Refusable(s.budget));
    assert Net(t) == Net(s);
  }

  lemma FinishKeeps(s: State, k: nat)
    requires Sound(s) && Within(s) && Enabled(s, Finish(k)) && Sound(Apply(s, Finish(k)))
    ensures Within(Apply(s, Finish(k)))
  {
    var i := s.calls[k].i;
    SumUpdate(s.calls, k, Over, Refusable(s.budget));
    GivableMoves(s.trim, s.c.target, i, s.c.target[i] + 1);
    Signed(1, i);
  }

  /** The step with which a burst puts its target up. */
  predicate Raises(s: State, a: Action)
    requires Sound(s)
  {
    && a.BurstStep? && a.k < |s.bursts| && s.bursts[a.k].Aims?
    && s.bursts[a.k].h > s.c.target[s.bursts[a.k].i]
  }

  lemma BurstKeeps(s: State, k: nat)
    requires Sound(s) && Within(s) && Enabled(s, BurstStep(k)) && Sound(Refilled(s, k)) && !Raises(s, BurstStep(k))
    ensures Within(Refilled(s, k))
  {
    OwedUpdate(s.bursts, k, Refilled(s, k).bursts[k]);
    if s.bursts[k].Aims? {
      var i := s.bursts[k].i;
      GivableMoves(s.trim, s.c.target, i, s.bursts[k].h);
      Signed(Refilled(s, k).bursts[k].d, i);
    }
  }

  lemma OthersKeep(s: State, a: Action)
    requires Sound(s) && Within(s) && Enabled(s, a) && (a.Return? || a.KeepStep? || a.Take?) && Sound(Apply(s, a))
    ensures Within(Apply(s, a)) && Apply(s, a).budget == s.budget
  {
    assert SameCounts(s, Apply(s, a)) && Apply(s, a).trim == s.trim;
  }

  /** Bursts that owe as much make no difference. */
  lemma SameOwed(s: State, bursts: seq<Burst>)
    requires Sound(s) && Within(s) && BurstsFit(bursts) && NoneRaised(bursts) && Owed(bursts) == Owed(s.bursts)
    ensures Within(s.(bursts := bursts))
  {
  }

  lemma NoticeKeeps(s: State, i: nat)
    requires Sound(s) && Within(s) && i < NUM_CLASSES
    ensures Within(s.(bursts := s.bursts + [Won(i)]))
  {
    OwedMore(s.bursts, Won(i));
    SameOwed(s, s.bursts + [Won(i)]);
  }

  lemma AimKeeps(s: State, k: nat, h: nat)
    requires Sound(s) && Within(s) && Enabled(s, Aim(k, h))
    ensures Within(s.(bursts := s.bursts[k := Aims(s.bursts[k].i, h)]))
  {
    OwedUpdate(s.bursts, k, Aims(s.bursts[k].i, h));
    SameOwed(s, s.bursts[k := Aims(s.bursts[k].i, h)]);
  }

  lemma StepKeeps(s: State, a: Action)
    requires Sound(s) && Within(s) && Enabled(s, a) && !a.Set? && !Raises(s, a) && Sound(Apply(s, a))
    ensures Within(Apply(s, a)) && Apply(s, a).budget == s.budget
  {
    match a {
      case TrimStep => TrimKeeps(s);
      case BurstStep(k) => BurstKeeps(s, k);
      case Notice(i) => NoticeKeeps(s, i);
      case Aim(k, h) => AimKeeps(s, k, h);
      case Return(_) => OthersKeep(s, a);
      case KeepStep(_) => OthersKeep(s, a);
      case Take(_) => OthersKeep(s, a);
      case _ => CallKeeps(s, a);
    }
  }

  // ---- Which futures.

  predicate HadLoaded(s: State, k: nat) { k < |s.bursts| && s.bursts[k].Aims? }

  /** The budget is not set again, and no burst that loads what is held from now on puts its target up with it. */
  predicate Gentle(s: State, run: seq<Action>)
    requires Sound(s)
  {
    run == [] ||
    var init, a := run[..|run| - 1], run[|run| - 1];
    Gentle(s, init) && !a.Set? && (Raises(After(s, init), a) ==> HadLoaded(s, a.k))
  }

  /** A burst only goes on, and aims only by loading what is held. */
  lemma BurstOnlyGoesOn(s: State, a: Action, k: nat)
    requires Sound(s) && k < |Next(s, a).bursts|
    ensures var b := Next(s, a).bursts[k];
            || (k < |s.bursts| && b == s.bursts[k])
            || (k < |s.bursts| && StepsLeft(b) < StepsLeft(s.bursts[k]) && (b.Aims? ==> a == Aim(k, b.h)))
            || (k >= |s.bursts| && b.Won?)
  {
  }

  lemma BurstsStay(s: State, a: Action)
    requires Sound(s)
    ensures |Next(s, a).bursts| >= |s.bursts|
  {
  }

  /** A burst that has loaded what is held keeps to that until it swaps. */
  lemma {:induction false} LoadsOnce(s: State, run: seq<Action>, k: nat)
    requires Sound(s) && HadLoaded(s, k)
    ensures var bursts := After(s, run).bursts;
            k < |bursts| && (bursts[k] == s.bursts[k] || StepsLeft(bursts[k]) < StepsLeft(s.bursts[k]))
  {
    if run != [] {
      var before, a := After(s, run[..|run| - 1]), run[|run| - 1];
      LoadsOnce(s, run[..|run| - 1], k);
      BurstsStay(before, a);
      BurstOnlyGoesOn(before, a, k);
    }
  }

  /** A burst that aims either had loaded what is held at first, or found nothing. */
  lemma {:induction false} FreshAims(s: State, run: seq<Action>, k: nat)
    requires Sound(s) && Mild(run) && HadLoaded(After(s, run), k)
    ensures HadLoaded(s, k) || After(s, run).bursts[k].h == 0
  {
    if run != [] {
      var before, a := After(s, run[..|run| - 1]), run[|run| - 1];
      BurstOnlyGoesOn(before, a, k);
      if HadLoaded(before, k) {
        FreshAims(s, run[..|run| - 1], k);
      }
    }
  }

  lemma {:induction false} MildIsGentle(s: State, run: seq<Action>)
    requires Sound(s) && Mild(run)
    ensures Gentle(s, run)
  {
    if run != [] {
      var init, a := run[..|run| - 1], run[|run| - 1];
      MildIsGentle(s, init);
      if Raises(After(s, init), a) {
        FreshAims(s, init, a.k);
      }
    }
  }

  /** The budget is not set again, and no burst puts its target up. */
  predicate NeverRaises(s: State, run: seq<Action>)
    requires Sound(s)
  {
    run == [] ||
    var init, a := run[..|run| - 1], run[|run| - 1];
    NeverRaises(s, init) && !a.Set? && !Raises(After(s, init), a)
  }

  lemma {:induction false} GentleNeverRaises(s: State, run: seq<Action>)
    requires Sound(s) && NoneAims(s.bursts) && Gentle(s, run)
    ensures NeverRaises(s, run)
  {
    if run != [] {
      var init, a := run[..|run| - 1], run[|run| - 1];
      GentleNeverRaises(s, init);
      if Raises(After(s, init), a) {
        LoadsOnce(s, init, a.k);
        assert false;
      }
    }
  }

  lemma {:induction false} RunKeeps(s: State, run: seq<Action>)
    requires Sound(s) && Within(s) && NeverRaises(s, run)
    ensures Within(After(s, run)) && After(s, run).budget == s.budget
  {
    if run != [] {
      var init, a := run[..|run| - 1], run[|run| - 1];
      RunKeeps(s, init);
      var before := After(s, init);
      if Enabled(before, a) {
        StepFits(before, a);
        StepKeeps(before, a);
      }
    }
  }

  // ---- The ways to a rest over the budget.

  /** No keep is under way, no burst but the one at `but`, and the reserves are empty. */
  predicate Settled(s: State, but: nat) {
    && AllEnded(s.keeps) && Empty(s.c.held)
    && forall j :: 0 <= j < |s.bursts| && j != but ==> s.bursts[j].Begun?
  }

  /** Keeps and bursts come to their end, and the reserves are emptied. */
  lemma ClearsUp(s: State, but: nat) returns (run: seq<Action>)
    requires Sound(s) && !s.trim.Popping?
    ensures Quiet(run)
    ensures var t := After(s, run);
            && t.budget == s.budget && t.calls == s.calls && t.trim == s.trim && |t.bursts| == |s.bursts|
            && Settled(t, but) && (but < |s.bursts| ==> t.bursts[but] == s.bursts[but]) && Lost(t) == Lost(s)
  {
    var ends := KeepsEnd(s);
    var u := After(s, ends);
    var drains := DrainAll(u, NUM_CLASSES);
    var v := After(u, drains);
    var bursts := BurstsEnd(v, 0, but);
    run := ends + (drains + bursts);
    AfterBoth(s, ends, drains + bursts);
    AfterBoth(u, drains, bursts);
    QuietBoth(drains, bursts);
    QuietBoth(ends, drains + bursts);
  }

  /** What is committed now, with what bursts have not counted and without what will be refused under `b`, that no target
      stands for: raises under way, and raises a trim has written over. */
  function Unaccounted(s: State, b: int): int
  {
    s.committed + Owed(s.bursts) - Sum(s.calls, Refusable(b)) - Cost(s.c.target)
  }

  lemma StartsWithin(s: State)
    requires Sound(s) && s.trim.Stored? && NoneRaised(s.bursts) && Unaccounted(s, s.budget) <= s.budget
    ensures Within(s)
  {
    assert s.c.target[..NUM_CLASSES] == s.c.target;
  }

  /** Once the targets are lowered to nothing, more than the budget is left. */
  lemma TooMuchIsLeft(s: State) returns (run: seq<Action>)
    requires Sound(s) && s.trim.Stored? && Unaccounted(s, s.budget) > s.budget
    ensures Quiet(run) && AtRest(After(s, run)) && After(s, run).committed > After(s, run).budget == s.budget
  {
    var clears := ClearsUp(s, |s.bursts|);
    var u := After(s, clears);
    var trims := TrimEnds(u);
    var v := After(u, trims);
    var ends := CallsEnd(v, 0);
    var w := After(v, ends);
    run := clears + (trims + ends);
    AfterBoth(s, clears, trims + ends);
    AfterBoth(u, trims, ends);
    QuietBoth(trims, ends);
    QuietBoth(clears, trims + ends);
    RestIsNet(w);
  }

  predicate OnlyBursts(run: seq<Action>) { forall n :: 0 <= n < |run| ==> run[n].BurstStep? }

  predicate OnlyTrims(run: seq<Action>) { forall n :: 0 <= n < |run| ==> run[n].TrimStep? }

  /** A burst sets the allowance to the target, and ends. */
  lemma FillsUp(s: State, k: nat) returns (run: seq<Action>)
    requires Sound(s) && k < |s.bursts| && s.bursts[k].Settles?
    ensures var i := s.bursts[k].i;
            After(s, run) == s.(c := s.c.(refill := s.c.refill[i := s.c.target[i]]), bursts := s.bursts[k := Begun])
    ensures Quiet(run) && OnlyBursts(run)
  {
    var a := BurstStep(k);
    run := [a] + [a];
    AfterTwo(s, a, a);
    assert Next(Next(s, a), a).bursts == s.bursts[k := Begun];
  }

  /** A burst counts what it has moved its target by, and ends. */
  lemma Counts(s: State, k: nat) returns (run: seq<Action>)
    requires Sound(s) && k < |s.bursts| && s.bursts[k].Moved?
    ensures Quiet(run) && OnlyBursts(run)
    ensures var i := s.bursts[k].i;
            After(s, run) == s.(committed := s.committed + Due(s.bursts[k]), bursts := s.bursts[k := Begun],
                                c := s.c.(refill := s.c.refill[i := s.c.target[i]]))
  {
    CountsNow(s, k);
    var u := Next(s, BurstStep(k));
    var rest := FillsUp(u, k);
    run := [BurstStep(k)] + rest;
    AfterOne(s, BurstStep(k), rest);
    QuietBoth([BurstStep(k)], rest);
  }

  lemma CountsNow(s: State, k: nat)
    requires Sound(s) && k < |s.bursts| && s.bursts[k].Moved?
    ensures Enabled(s, BurstStep(k))
    ensures var u := Next(s, BurstStep(k));
            && u == s.(committed := s.committed + Due(s.bursts[k]), bursts := s.bursts[k := Settles(s.bursts[k].i)])
            && u.bursts[k := Begun] == s.bursts[k := Begun]
  {
  }

  /** A target raised and not counted leaves room that others then fill. */
  lemma UncountedIsTooMuch(s: State, k: nat) returns (run: seq<Action>)
    requires Sound(s) && s.trim.Off? && k < |s.bursts| && s.bursts[k].Moved? && s.bursts[k].d > 0
    requires AllOver(s.calls) && AllEnded(s.keeps) && forall j :: 0 <= j < |s.bursts| && j != k ==> s.bursts[j].Begun?
    ensures Quiet(run) && AtRest(After(s, run)) && After(s, run).committed > After(s, run).budget == s.budget
  {
    var fills := Saturate(s, 0);
    var u := After(s, fills);
    var counts := Counts(u, k);
    Signed(u.bursts[k].d, u.bursts[k].i);
    run := fills + counts;
    AfterBoth(s, fills, counts);
    QuietBoth(fills, counts);
  }

  /** Calls add so much that the trim lowers every target to nothing. */
  lemma TrimsAll(s: State) returns (run: seq<Action>)
    requires Sound(s) && s.trim.Stored? && Empty(s.c.held)
    ensures Quiet(run)
    ensures var t := After(s, run);
            && t == s.(committed := t.committed, c := s.c.(target := t.c.target), calls := t.calls, trim := Off)
            && Empty(t.c.target)
  {
    var over := s.budget + Cost(s.c.target) - s.committed;
    var adds := Inflate(s, 0, if over >= 0 then over + 1 else 0);
    var u := After(s, adds);
    var trims := TrimEnds(u);
    run := adds + trims;
    AfterBoth(s, adds, trims);
    QuietBoth(adds, trims);
  }

  /** The targets are lowered to nothing, and the one burst left then raises its own. */
  lemma AimsHigh(s: State, k: nat) returns (run: seq<Action>)
    requires Sound(s) && s.trim.Stored? && k < |s.bursts| && Settled(s, k)
    requires (s.bursts[k].Aims? && s.bursts[k].h > 0) || (s.bursts[k].Moved? && s.bursts[k].d > 0)
    ensures Quiet(run)
    ensures var t := After(s, run);
            && t.trim.Off? && t.budget == s.budget && |t.bursts| == |s.bursts| && Settled(t, k)
            && t.bursts[k].Moved? && t.bursts[k].d > 0
  {
    run := TrimsAll(s);
    if s.bursts[k].Aims? {
      AfterMore(s, run, BurstStep(k));
      QuietBoth(run, [BurstStep(k)]);
      run := run + [BurstStep(k)];
    }
  }

  lemma AimsTooHigh(s: State, k: nat) returns (run: seq<Action>)
    requires Sound(s) && s.trim.Stored? && k < |s.bursts|
    requires (s.bursts[k].Aims? && s.bursts[k].h > 0) || (s.bursts[k].Moved? && s.bursts[k].d > 0)
    ensures Quiet(run) && AtRest(After(s, run)) && After(s, run).committed > After(s, run).budget == s.budget
  {
    var clears := ClearsUp(s, k);
    var u := After(s, clears);
    var aims := AimsHigh(u, k);
    var v := After(u, aims);
    var ends := CallsEnd(v, 0);
    var w := After(v, ends);
    var last := UncountedIsTooMuch(w, k);
    run := clears + (aims + (ends + last));
    AfterBoth(s, clears, aims + (ends + last));
    AfterBoth(u, aims, ends + last);
    AfterBoth(v, ends, last);
    QuietBoth(ends, last);
    QuietBoth(aims, ends + last);
    QuietBoth(clears, aims + (ends + last));
  }

  // ---- The exact condition.

  /** Setting the budget holds, in that no rest after it is over it whatever else happens but another setting of it or a
      burst that loads what is held after it and puts its target up with that, exactly if what no target stands for
      fits in it, no burst under way has loaded anything to aim at, and none has raised a target without having
      counted it. */
  lemma SetHoldsIfAccounted(s: State, bytes: nat)
    requires Sound(s) && s.trim.Off?
    ensures Sound(Apply(s, Set(bytes)))
    ensures Unaccounted(s, bytes) <= bytes && NoneAims(s.bursts) && NoneRaised(s.bursts) <==>
              forall more :: Gentle(Apply(s, Set(bytes)), more) && AtRest(After(Apply(s, Set(bytes)), more)) ==>
                               After(Apply(s, Set(bytes)), more).committed <= bytes
  {
    var t := Apply(s, Set(bytes));
    if Unaccounted(s, bytes) > bytes {
      var run := TooMuchIsLeft(t);
      MildIsGentle(t, run);
      assert !(After(t, run).committed <= bytes);
    } else if !NoneAims(s.bursts) || !NoneRaised(s.bursts) {
      var k: nat :| && k < |s.bursts|
                    && ((s.bursts[k].Aims? && s.bursts[k].h > 0) || (s.bursts[k].Moved? && s.bursts[k].d > 0));
      var run := AimsTooHigh(t, k);
      MildIsGentle(t, run);
      assert !(After(t, run).committed <= bytes);
    } else {
      StartsWithin(t);
      forall more | Gentle(t, more) && AtRest(After(t, more))
        ensures After(t, more).committed <= bytes
      {
        GentleNeverRaises(t, more);
        RunKeeps(t, more);
        RestIsNet(After(t, more));
      }
    }
  }
}
