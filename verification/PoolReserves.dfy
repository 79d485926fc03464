/** When SetRetainedBytes leaves every reserve of the buffer pool within its target, with its callers at once. */
module PoolReserves {
  import opened BufferPool
  import opened PoolSteps
  import opened PoolCounts
  import opened PoolRuns
  import opened PoolBudget

  predicate WithinTargets(c: Classes)
    requires ClassesFit(c)
  {
    forall i :: 0 <= i < NUM_CLASSES ==> c.held[i] <= c.target[i]
  }

  /** No return may go to a reserve. */
  predicate NoneAllowed(c: Classes)
    requires ClassesFit(c)
  {
    forall i :: 0 <= i < NUM_CLASSES ==> c.refill[i] <= 0
  }

  // ---- What fills and empties a reserve.

  /** A reserve gains one exactly where a keep that was let in appends, loses one where a Get takes from it, and is cut to
      what a trim has popped it down to where that stores; an allowance is set by a burst that ends, to the target it
      loaded, and spent by a return that keeps. */
  lemma ReservesMove(s: State, a: Action, i: nat)
    requires Sound(s) && Enabled(s, a) && i < NUM_CLASSES
    ensures var t := Apply(s, a);
            && |t.c.held| == |t.c.refill| == NUM_CLASSES
            && t.c.held[i] == (if a.KeepStep? && s.keeps[a.k] == Admitted(i) then s.c.held[i] + 1
                               else if a == Take(i) then OneLess(s.c.held[i])
                               else if a.TrimStep? && s.trim.Popping? && s.trim.left == i + 1
                                       && s.trim.len <= s.c.target[i] then s.trim.len
                               else s.c.held[i])
            && t.c.refill[i] == (if a.BurstStep? && s.bursts[a.k].Fills? && s.bursts[a.k].i == i then s.bursts[a.k].t
                                 else if a.KeepStep? && s.keeps[a.k] == Allowed(i) then s.c.refill[i] - 1
                                 else if a.KeepStep? && s.keeps[a.k] == Overdrawn(i) then 0
                                 else s.c.refill[i])
  {
    StepFits(s, a);
  }

  // ---- Where no return goes to a reserve.

  /** The class a trim is at. */
  function Place(trim: Trim): int { if trim.Off? || trim.Stored? then -1 else trim.left - 1 }

  /** Every class but the trim's own is within its target; it has seen no less than is held there, and loaded no more
      than the target. */
  predicate TrimTidy(c: Classes, trim: Trim)
    requires ClassesFit(c) && TrimFits(trim)
  {
    && (forall i :: 0 <= i < NUM_CLASSES && i != Place(trim) ==> c.held[i] <= c.target[i])
    && (trim.Held? ==> c.held[trim.left - 1] <= trim.h) && (trim.Loaded? ==> trim.t <= c.target[trim.left - 1])
  }

  predicate Tidy(s: State)
    requires Sound(s)
  {
    AllBegun(s.bursts) && AllEnded(s.keeps) && NoneAllowed(s.c) && TrimTidy(s.c, s.trim)
  }

  lemma TrimStaysTidy(s: State)
    requires Sound(s) && Tidy(s) && Enabled(s, TrimStep) && Sound(Trimmed(s))
    ensures Tidy(Trimmed(s))
  {
  }

  lemma OthersStayTidy(s: State, a: Action)
    requires Sound(s) && Tidy(s) && Enabled(s, a) && !a.Set? && !a.Notice? && !a.TrimStep? && Sound(Apply(s, a))
    ensures Tidy(Apply(s, a)) && Apply(s, a).bursts == s.bursts
  {
  }

  /** Nothing is written over but raises. */
  lemma TidyLoses(s: State, a: Action)
    requires Sound(s) && Tidy(s)
    ensures WrittenOver(s, a) >= 0
  {
    if a.TrimStep? && s.trim.Loaded? {
      Signed(s.c.target[s.trim.left - 1] - s.trim.t, s.trim.left - 1);
    }
  }

  lemma StepStaysTidy(s: State, a: Action)
    requires Sound(s) && Tidy(s) && !a.Set? && !a.Notice?
    ensures Tidy(Next(s, a)) && Lost(Next(s, a)) >= Lost(s) && Next(s, a).bursts == s.bursts
  {
    if Enabled(s, a) {
      OnlyRacesLose(s, a);
      TidyLoses(s, a);
      if a.TrimStep? {
        TrimStaysTidy(s);
      } else {
        OthersStayTidy(s, a);
      }
    }
  }

  lemma {:induction false} RunStaysTidy(s: State, run: seq<Action>)
    requires Sound(s) && Tidy(s) && Calm(run)
    ensures Tidy(After(s, run)) && Lost(After(s, run)) >= Lost(s) && After(s, run).bursts == s.bursts
  {
    if run != [] {
      var before, a := After(s, run[..|run| - 1]), run[|run| - 1];
      RunStaysTidy(s, run[..|run| - 1]);
      StepStaysTidy(before, a);
    }
  }

  // ---- Where one can.

  /** A keep is admitted to an empty reserve whose target is then lowered to nothing. */
  lemma KeepComesTooLate(s: State, i: nat) returns (run: seq<Action>)
    requires Sound(s) && s.trim.Stored? && AllOver(s.calls) && AllBegun(s.bursts) && AllEnded(s.keeps)
    requires i < NUM_CLASSES && s.c.refill[i] > 0 && s.committed + ClassSize(i) <= s.budget
    ensures Calm(run) && AtRest(After(s, run)) && After(s, run).c.held[i] > After(s, run).c.target[i]
  {
    var admits := AdmitsOne(s, i);
    var u := After(s, admits);
    var lowers := LowersAll(u, i);
    var v := After(u, lowers);
    var appends := AppendsOne(v, i);
    run := admits + (lowers + appends);
    AfterBoth(u, lowers, appends);
    AfterBoth(s, admits, lowers + appends);
    QuietBoth(lowers, appends);
    QuietBoth(admits, lowers + appends);
  }

  lemma AdmitsOne(s: State, i: nat) returns (run: seq<Action>)
    requires Sound(s) && s.trim.Stored? && AllOver(s.calls) && AllEnded(s.keeps)
    requires i < NUM_CLASSES && s.c.refill[i] > 0 && s.committed + ClassSize(i) <= s.budget
    ensures Calm(run)
    ensures var t := After(s, run);
            && t.budget == s.budget && t.bursts == s.bursts && t.trim.Stored? && AllOver(t.calls) && Empty(t.c.held)
            && OneAdmitted(t.keeps, i) && t.committed + ClassSize(i) > t.budget
  {
    var fills := Saturate(s, i);
    var u := After(s, fills);
    var drains := DrainAll(u, NUM_CLASSES);
    var v := After(u, drains);
    var admits := IsAdmitted(v, i);
    run := fills + (drains + admits);
    AfterBoth(u, drains, admits);
    AfterBoth(s, fills, drains + admits);
    QuietBoth(drains, admits);
    QuietBoth(fills, drains + admits);
  }

  lemma LowersAll(s: State, i: nat) returns (run: seq<Action>)
    requires Sound(s) && s.trim.Stored? && AllOver(s.calls) && Empty(s.c.held) && i < NUM_CLASSES
    requires s.committed + ClassSize(i) > s.budget
    ensures Calm(run)
    ensures var t := After(s, run);
            && t == s.(committed := t.committed, c := s.c.(target := t.c.target), calls := t.calls, trim := Off)
            && Empty(t.c.target) && NeverPass(t.calls, t.budget)
  {
    var over := s.budget + Cost(s.c.target) - s.committed;
    var adds := Inflate(s, i, if over >= 0 then over + 1 else 0);
    var u := After(s, adds);
    var trims := TrimEnds(u);
    run := adds + trims;
    AfterBoth(s, adds, trims);
    QuietBoth(adds, trims);
  }

  lemma AppendsOne(s: State, i: nat) returns (run: seq<Action>)
    requires Sound(s) && s.trim.Off? && AllBegun(s.bursts) && OneAdmitted(s.keeps, i) && i < NUM_CLASSES
    requires Empty(s.c.held) && Empty(s.c.target) && NeverPass(s.calls, s.budget)
    ensures Calm(run) && AtRest(After(s, run)) && After(s, run).c.held[i] > After(s, run).c.target[i]
  {
    var a := KeepStep(|s.keeps| - 1);
    var u := Next(s, a);
    Appends(s, i);
    var ends := CallsEnd(u, 0);
    run := [a] + ends;
    AfterOne(s, a, ends);
    QuietBoth([a], ends);
  }

  // ---- The exact condition.

  /** From a rest with every reserve within its target, setting the budget, to whatever it is, leaves them so at every
      rest to come, while it is not set again and no burst begins, exactly if no class has returns left to keep. */
  lemma ReservesHoldIfUsedUp(s: State)
    requires Sound(s) && AtRest(s) && WithinTargets(s.c)
    ensures NoneAllowed(s.c) <==>
              forall bytes: nat, more :: Calm(more) && AtRest(After(Next(s, Set(bytes)), more)) ==>
                                           WithinTargets(After(Next(s, Set(bytes)), more).c)
  {
    if NoneAllowed(s.c) {
      forall bytes: nat, more | Calm(more) && AtRest(After(Next(s, Set(bytes)), more))
        ensures WithinTargets(After(Next(s, Set(bytes)), more).c)
      {
        RunStaysTidy(Next(s, Set(bytes)), more);
      }
    } else {
      var i: nat :| i < NUM_CLASSES && s.c.refill[i] > 0;
      var room := s.committed + ClassSize(i);
      var bytes: nat := if room >= 0 then room else 0;
      var run := KeepComesTooLate(Next(s, Set(bytes)), i);
      assert !WithinTargets(After(Next(s, Set(bytes)), run).c);
    }
  }

  /** Then what the reserves hold fits in the budget if what is committed beyond the targets does, and a budget of nothing
      empties them. */
  lemma ReservesFit(s: State, bytes: nat, more: seq<Action>)
    requires Sound(s) && AtRest(s) && WithinTargets(s.c) && NoneAllowed(s.c)
    requires 0 <= s.committed - Cost(s.c.target) <= bytes
    requires Calm(more) && AtRest(After(Next(s, Set(bytes)), more))
    ensures var held := After(Next(s, Set(bytes)), more).c.held; Cost(held) <= bytes && (bytes == 0 ==> Empty(held))
  {
    TargetsFit(s, bytes, more);
    RunStaysTidy(Next(s, Set(bytes)), more);
    HeldFits(After(Next(s, Set(bytes)), more).c, bytes);
  }

  lemma HeldFits(c: Classes, bytes: nat)
    requires ClassesFit(c) && WithinTargets(c) && Cost(c.target) <= bytes
    ensures Cost(c.held) <= bytes && (bytes == 0 ==> Empty(c.held))
  {
    CostGrows(c.held, c.target);
    forall i | 0 <= i < NUM_CLASSES && bytes == 0
      ensures c.held[i] == 0
    {
      CostOfOne(c.held, i);
      Signed(c.held[i], i);
    }
  }

  lemma TargetsFit(s: State, bytes: nat, more: seq<Action>)
    requires Sound(s) && AtRest(s) && WithinTargets(s.c) && NoneAllowed(s.c)
    requires 0 <= s.committed - Cost(s.c.target) <= bytes
    requires Calm(more) && AtRest(After(Next(s, Set(bytes)), more))
    ensures Cost(After(Next(s, Set(bytes)), more).c.target) <= bytes
  {
    var t := Next(s, Set(bytes));
    RunStaysTidy(t, more);
    RestIsNet(s);
    RestIsNet(After(t, more));
    CalmIsGentle(t, more);
    SumNone(s.calls, Refusable(bytes));
    OwedNone(s.bursts);
    SetHoldsIfAccounted(s, bytes);
  }

  lemma {:induction false} CalmIsGentle(s: State, run: seq<Action>)
    requires Sound(s) && Tidy(s) && Calm(run)
    ensures Gentle(s, run)
  {
    if run != [] {
      CalmIsGentle(s, run[..|run| - 1]);
      RunStaysTidy(s, run[..|run| - 1]);
    }
  }
}
