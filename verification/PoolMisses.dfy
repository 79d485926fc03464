/** Runs of the buffer pool's callers that leave more committed than the budget, or more held than the target. */
module PoolMisses {
  import opened BufferPool
  import opened PoolSteps
  import opened PoolCounts
  import opened PoolRuns
  import opened PoolBudget

  /** A raise that has passed its check when the budget is taken away can leave a rest over it. */
  lemma SetCanComeTooLate(s: State, i: nat) returns (run: seq<Action>)
    requires Init(s) && Sound(s) && i < NUM_CLASSES && ClassSize(i) <= s.budget
    ensures AtRest(After(s, run)) && After(s, run).committed > After(s, run).budget == 0
  {
    var first := [Begin(i)] + [Check(0)];
    AfterTwo(s, Begin(i), Check(0));
    var u := After(s, first);
    OnePassed(s, u, i);
    var rest := TooMuchIsLeft(Apply(u, Set(0)));
    AfterOne(u, Set(0), rest);
    AfterBoth(s, first, [Set(0)] + rest);
    run := first + ([Set(0)] + rest);
  }

  lemma OnePassed(s: State, u: State, i: nat)
    requires Init(s) && Sound(s) && Sound(u) && u == s.(committed := ClassSize(i), calls := [Passed(i)])
    ensures Unaccounted(u, 0) > 0
  {
    CostNone(s.c.target);
    SumMore([], Passed(i), Refusable(0));
    assert [] + [Passed(i)] == u.calls;
  }

  /** The budget is not set. */
  predicate Unset(run: seq<Action>) { forall n :: 0 <= n < |run| ==> !run[n].Set? }

  /** A burst where the last was used up. */
  lemma Bursts(s: State, i: nat) returns (run: seq<Action>)
    requires Sound(s) && i < NUM_CLASSES && s.c.refill[i] <= 0
    ensures Mild(run)
    ensures After(s, run) == s.(c := s.c.(refill := s.c.refill[i := s.c.target[i]]), bursts := s.bursts + [Begun])
  {
    var first := Begins(s, i);
    var u := After(s, first);
    var rest := FillsUp(u, |s.bursts|);
    run := first + rest;
    AfterBoth(s, first, rest);
    QuietBoth(first, rest);
    assert u.bursts[|s.bursts| := Begun] == s.bursts + [Begun];
  }

  lemma Begins(s: State, i: nat) returns (run: seq<Action>)
    requires Sound(s) && i < NUM_CLASSES && s.c.refill[i] <= 0
    ensures Mild(run) && After(s, run) == s.(bursts := s.bursts + [Settles(i)])
  {
    var a := BurstStep(|s.bursts|);
    run := [Notice(i)] + [a];
    AfterTwo(s, Notice(i), a);
    assert Next(Next(s, Notice(i)), a).bursts == s.bursts + [Settles(i)];
  }

  /** A burst that finds the last was not used up, and loads what is held. */
  lemma Loads(s: State, i: nat) returns (run: seq<Action>)
    requires Sound(s) && i < NUM_CLASSES && s.c.refill[i] > 0
    ensures Unset(run) && After(s, run) == s.(bursts := s.bursts + [Aims(i, s.c.held[i])])
  {
    var n := |s.bursts|;
    var u := Next(s, Notice(i));
    var v := Next(u, BurstStep(n));
    assert v.bursts == s.bursts + [Looks(i)];
    var a := Aim(n, s.c.held[i]);
    assert Next(v, a).bursts == s.bursts + [Aims(i, s.c.held[i])];
    run := [Notice(i)] + [BurstStep(n)] + [a];
    AfterTwo(s, Notice(i), BurstStep(n));
    AfterMore(s, [Notice(i)] + [BurstStep(n)], a);
  }

  /** A return that finds room goes to the reserve. */
  lemma Keeps(s: State, i: nat) returns (run: seq<Action>)
    requires Sound(s) && i < NUM_CLASSES && s.c.refill[i] > 0 && s.c.held[i] < s.c.target[i]
    requires AllEnded(s.keeps) && s.trim.Off?
    ensures Quiet(run)
    ensures var t := After(s, run);
            && t.committed == s.committed && t.budget == s.budget && t.calls == s.calls && t.bursts == s.bursts
            && t.c == Classes(s.c.target, s.c.held[i := s.c.held[i] + 1], s.c.refill[i := s.c.refill[i] - 1])
            && AllEnded(t.keeps) && t.trim.Off?
  {
    var first := IsAdmitted(s, i);
    var a := KeepStep(|s.keeps|);
    run := first + [a];
    AfterMore(s, first, a);
    QuietBoth(first, [a]);
    IsKept(s, After(s, first), i);
  }

  lemma IsKept(s: State, u: State, i: nat)
    requires Sound(s) && i < NUM_CLASSES && AllEnded(s.keeps) && s.trim.Off? && Sound(u)
    requires u == s.(c := s.c.(refill := s.c.refill[i := s.c.refill[i] - 1]), keeps := s.keeps + [Admitted(i)])
    ensures var t := Next(u, KeepStep(|s.keeps|));
            && t.committed == s.committed && t.budget == s.budget && t.calls == s.calls && t.bursts == s.bursts
            && t.c == Classes(s.c.target, s.c.held[i := s.c.held[i] + 1], s.c.refill[i := s.c.refill[i] - 1])
            && AllEnded(t.keeps) && t.trim.Off?
  {
    assert u.keeps[..|s.keeps|] == s.keeps;
    Appends(u, i);
  }

  /** One class has had one buffer made for it, and holds it. */
  lemma HoldsOne(s: State, i: nat) returns (run: seq<Action>)
    requires Init(s) && Sound(s) && i < NUM_CLASSES && ClassSize(i) <= s.budget
    ensures Unset(run)
    ensures var t := After(s, run);
            && t.committed == ClassSize(i) && t.budget == s.budget && t.calls == [Over] && t.bursts == [Begun]
            && AllEnded(t.keeps) && t.trim.Off? && t.c.refill[i] <= 0
            && t.c.target == s.c.target[i := 1] && t.c.held == s.c.held[i := 1]
  {
    var raise := Raise(s, i);
    var u := After(s, raise);
    var burst := Bursts(u, i);
    var v := After(u, burst);
    var keep := Keeps(v, i);
    run := raise + (burst + keep);
    AfterBoth(u, burst, keep);
    AfterBoth(s, raise, burst + keep);
  }

  /** A burst has loaded that the class holds one, which is then taken. */
  lemma LoadsOne(s: State, i: nat) returns (run: seq<Action>)
    requires Init(s) && Sound(s) && i < NUM_CLASSES && ClassSize(i) <= s.budget
    ensures Unset(run)
    ensures var t := After(s, run);
            && t.committed == ClassSize(i) && t.budget == s.budget && t.calls == [Over]
            && t.bursts == [Begun, Begun, Aims(i, 1)] && AllEnded(t.keeps) && t.trim.Off? && t.c.refill[i] > 0
            && t.c.target == s.c.target[i := 1] && Empty(t.c.held)
  {
    var first := HoldsOne(s, i);
    var u := After(s, first);
    var rest := LoadsAll(u, i);
    AfterBoth(s, first, rest);
    run := first + rest;
  }

  /** A burst that was used up is followed by one that loads what is held; then one buffer is taken. */
  lemma LoadsAll(s: State, i: nat) returns (run: seq<Action>)
    requires Sound(s) && i < NUM_CLASSES && s.c.refill[i] <= 0 < s.c.target[i] && s.c.held[i] > 0
    requires AllEnded(s.keeps) && s.trim.Off?
    ensures Unset(run)
    ensures After(s, run) == s.(bursts := s.bursts + [Begun] + [Aims(i, s.c.held[i])],
                                c := s.c.(held := s.c.held[i := s.c.held[i] - 1],
                                          refill := s.c.refill[i := s.c.target[i]]))
  {
    var burst := Bursts(s, i);
    var v := After(s, burst);
    var loads := Loads(v, i);
    AfterMore(v, loads, Take(i));
    AfterBoth(s, burst, loads + [Take(i)]);
    run := burst + (loads + [Take(i)]);
  }

  /** Then nothing is committed beyond its target. */
  lemma OneIsAccounted(s: State, u: State, i: nat)
    requires Init(s) && Sound(s) && i < NUM_CLASSES && Sound(u) && u.c.target == s.c.target[i := 1]
    requires u.committed == ClassSize(i) && AllOver(u.calls) && forall k :: 0 <= k < |u.bursts| ==> !u.bursts[k].Moved?
    ensures Unaccounted(u, 0) == 0 && (u.trim.Off? ==> Lost(u) == 0)
  {
    CostNone(s.c.target);
    CostUpdate(s.c.target, i, 1);
    SumNone(u.calls, Refusable(0));
    SumNone(u.calls, UnderWay);
    OwedNone(u.bursts);
  }

  lemma {:induction false} TrimsNeverRaise(s: State, run: seq<Action>)
    requires Sound(s) && OnlyTrims(run)
    ensures NeverRaises(s, run)
  {
    if run != [] {
      TrimsNeverRaise(s, run[..|run| - 1]);
    }
  }

  /** A trim that is left alone brings what is committed within the budget. */
  lemma TrimHolds(s: State, trims: seq<Action>)
    requires Sound(s) && s.trim.Stored? && OnlyTrims(trims) && Unaccounted(s, s.budget) <= s.budget
    requires var t := After(s, trims);
             && t.trim.Off? && AllOver(t.calls) && t.bursts == s.bursts
             && forall k :: 0 <= k < |s.bursts| ==> !s.bursts[k].Moved?
    ensures After(s, trims).committed <= s.budget
  {
    TrimsNeverRaise(s, trims);
    StartsWithin(s);
    RunKeeps(s, trims);
    SumNone(After(s, trims).calls, Refusable(s.budget));
    OwedNone(s.bursts);
  }

  /** A burst puts its target where it aims, counts that, and ends. */
  lemma AimsAndCounts(s: State, k: nat) returns (run: seq<Action>)
    requires Sound(s) && k < |s.bursts| && s.bursts[k].Aims?
    ensures OnlyBursts(run)
    ensures var i, t := s.bursts[k].i, After(s, run);
            && t == s.(committed := t.committed, bursts := s.bursts[k := Begun],
                       c := s.c.(target := s.c.target[i := s.bursts[k].h], refill := t.c.refill))
            && t.committed == s.committed + (s.bursts[k].h - s.c.target[i]) * ClassSize(i)
  {
    Swaps(s, k);
    var u := Next(s, BurstStep(k));
    var rest := Counts(u, k);
    run := [BurstStep(k)] + rest;
    AfterOne(s, BurstStep(k), rest);
    SwapsAndCounts(s, u, After(u, rest), k);
  }

  lemma SwapsAndCounts(s: State, u: State, t: State, k: nat)
    requires Sound(s) && k < |s.bursts| && s.bursts[k].Aims? && Sound(u) && Sound(t)
    requires var i, h := s.bursts[k].i, s.bursts[k].h;
             && u == s.(c := s.c.(target := s.c.target[i := h]), bursts := s.bursts[k := Moved(i, h - s.c.target[i])])
             && t == u.(committed := u.committed + Due(u.bursts[k]), bursts := u.bursts[k := Begun],
                        c := u.c.(refill := t.c.refill))
    ensures var i, h := s.bursts[k].i, s.bursts[k].h;
            && t == s.(committed := t.committed, bursts := s.bursts[k := Begun],
                       c := s.c.(target := s.c.target[i := h], refill := t.c.refill))
            && t.committed == s.committed + (h - s.c.target[i]) * ClassSize(i)
  {
    assert u.bursts[k := Begun] == s.bursts[k := Begun];
  }

  lemma Swaps(s: State, k: nat)
    requires Sound(s) && k < |s.bursts| && s.bursts[k].Aims?
    ensures Enabled(s, BurstStep(k))
    ensures var i, h, u := s.bursts[k].i, s.bursts[k].h, Next(s, BurstStep(k));
            && u == s.(c := s.c.(target := s.c.target[i := h]), bursts := s.bursts[k := Moved(i, h - s.c.target[i])])
            && u.bursts[k := Begun] == s.bursts[k := Begun]
  {
  }

  /** A burst that has loaded what is held can put its target up after the budget was taken away and the trim has run
      its course, though every raise was accounted for: what is committed was within the budget, and ends over it. */
  lemma AimCanComeTooLate(s: State, i: nat) returns (run: seq<Action>, trims: seq<Action>, last: seq<Action>)
    requires Init(s) && Sound(s) && i < NUM_CLASSES && ClassSize(i) <= s.budget
    ensures var u := After(s, run);
            && AllOver(u.calls) && u.trim.Off? && Unaccounted(u, 0) <= 0
            && var v := After(Apply(u, Set(0)), trims);
            && OnlyTrims(trims) && v.trim.Off? && v.committed <= v.budget == 0
            && var w := After(v, last);
            && OnlyBursts(last) && AtRest(w) && w.committed > w.budget == 0
  {
    run := LoadsOne(s, i);
    var u := After(s, run);
    OneIsAccounted(s, u, i);
    trims := TrimsAlone(u);
    last := AimsLate(After(Apply(u, Set(0)), trims), i);
  }

  lemma AimsLate(v: State, i: nat) returns (last: seq<Action>)
    requires Sound(v) && v.trim.Off? && AllOver(v.calls) && AllEnded(v.keeps) && i < NUM_CLASSES && v.budget == 0
    requires v.bursts == [Begun, Begun, Aims(i, 1)] && Lost(v) == 0
    ensures OnlyBursts(last) && AtRest(After(v, last)) && After(v, last).committed > After(v, last).budget == 0
  {
    last := AimsAndCounts(v, 2);
    EndsOver(v, After(v, last), i);
  }

  lemma TrimsAlone(u: State) returns (trims: seq<Action>)
    requires Sound(u) && u.trim.Off? && AllOver(u.calls) && Empty(u.c.held) && Unaccounted(u, 0) <= 0 && Lost(u) == 0
    requires forall k :: 0 <= k < |u.bursts| ==> !u.bursts[k].Moved?
    ensures OnlyTrims(trims)
    ensures var v := After(Apply(u, Set(0)), trims);
            && v == u.(committed := v.committed, budget := 0, c := u.c.(target := v.c.target), trim := Off)
            && v.committed <= 0 && Lost(v) == 0
  {
    var set0 := Apply(u, Set(0));
    trims := TrimEnds(set0);
    TrimHolds(set0, trims);
  }

  lemma EndsOver(s: State, t: State, i: nat)
    requires Sound(s) && Sound(t) && i < NUM_CLASSES && s.trim.Off? && AllOver(s.calls) && Lost(s) == 0
    requires forall k :: 0 <= k < |s.bursts| ==> !s.bursts[k].Moved?
    requires t.committed == s.committed + (1 - s.c.target[i]) * ClassSize(i)
    ensures t.committed > 0
  {
    SumNone(s.calls, UnderWay);
    OwedNone(s.bursts);
    CostOfOne(s.c.target, i);
    var size: int, n: int := ClassSize(i), s.c.target[i];
    assert n * size + (1 - n) * size == size;
  }

  /** Bursts alone can leave a rest over the budget, which was never set: one loads what is held, another that finds
      less lowers the target, the room is used, and the first puts the target up again. */
  lemma BudgetCanBeExceeded(s: State, i: nat) returns (run: seq<Action>)
    requires Init(s) && Sound(s) && i < NUM_CLASSES && ClassSize(i) <= s.budget
    ensures Unset(run) && AtRest(After(s, run)) && After(s, run).committed > After(s, run).budget == s.budget
  {
    var first := LoadsOne(s, i);
    var u := After(s, first);
    var lowers := LowersByAnother(u, i);
    var w := After(u, lowers);
    var x := Next(w, BurstStep(2));
    var rest := UncountedIsTooMuch(x, 2);
    AfterOne(w, BurstStep(2), rest);
    AfterBoth(u, lowers, [BurstStep(2)] + rest);
    run := first + (lowers + ([BurstStep(2)] + rest));
    AfterBoth(s, first, lowers + ([BurstStep(2)] + rest));
  }

  lemma LowersByAnother(u: State, i: nat) returns (run: seq<Action>)
    requires Sound(u) && i < NUM_CLASSES && u.c.refill[i] > 0 && Empty(u.c.held)
    ensures Unset(run)
    ensures var t := After(u, run);
            && t == u.(committed := t.committed, bursts := u.bursts + [Begun],
                       c := u.c.(target := u.c.target[i := 0], refill := t.c.refill))
  {
    var loads := Loads(u, i);
    var v := After(u, loads);
    var lowers := AimsAndCounts(v, |u.bursts|);
    run := loads + lowers;
    AfterBoth(u, loads, lowers);
    assert v.bursts[|u.bursts| := Begun] == u.bursts + [Begun];
  }

  /** One class has a target of one, and a return has been let into its empty reserve. */
  lemma AdmitsOne(s: State, i: nat) returns (run: seq<Action>)
    requires Init(s) && Sound(s) && i < NUM_CLASSES && ClassSize(i) <= s.budget
    ensures Unset(run)
    ensures var t := After(s, run);
            && t.committed == ClassSize(i) && t.calls == [Over] && t.bursts == [Begun] && t.keeps == [Admitted(i)]
            && t.trim.Off? && t.c.target == s.c.target[i := 1] && t.c.held == s.c.held
  {
    var raise := Raise(s, i);
    var u := After(s, raise);
    var burst := Bursts(u, i);
    var v := After(u, burst);
    var admits := IsAdmitted(v, i);
    run := raise + (burst + admits);
    AfterBoth(u, burst, admits);
    AfterBoth(s, raise, burst + admits);
  }

  /** A return let in before the budget was taken away can be kept after the trim has run its course, and stays in a
      reserve that may hold nothing. */
  lemma KeepCanComeTooLate(s: State, i: nat) returns (run: seq<Action>, trims: seq<Action>)
    requires Init(s) && Sound(s) && i < NUM_CLASSES && ClassSize(i) <= s.budget
    ensures var u := After(s, run);
            && u.trim.Off? && |u.keeps| == 1 && u.keeps[0] == Admitted(i)
            && var v := After(Apply(u, Set(0)), trims);
            && OnlyTrims(trims) && v.trim.Off? && v.committed <= v.budget == 0
            && var w := Next(v, KeepStep(0));
            && AtRest(w) && w.c.held[i] == 1 && w.c.target[i] == 0
  {
    run := AdmitsOne(s, i);
    var u := After(s, run);
    OneIsAccounted(s, u, i);
    trims := TrimsAlone(u);
    var v := After(Apply(u, Set(0)), trims);
    NothingIsLeft(v, i);
    assert Next(v, KeepStep(0)).keeps == [Ended];
  }

  lemma NothingIsLeft(v: State, i: nat)
    requires Sound(v) && i < NUM_CLASSES && v.trim.Off? && AllOver(v.calls) && v.committed <= 0 && Lost(v) == 0
    requires forall k :: 0 <= k < |v.bursts| ==> !v.bursts[k].Moved?
    ensures v.c.target[i] == 0
  {
    SumNone(v.calls, UnderWay);
    OwedNone(v.bursts);
    CostOfOne(v.c.target, i);
    Signed(v.c.target[i], i);
  }
}
