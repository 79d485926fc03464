/** Ways for the callers of the buffer pool to come to rest, from which the runs that miss its promises are made. */
module PoolRuns {
  import opened BufferPool
  import opened PoolSteps
  import opened PoolCounts

  predicate Quiet(run: seq<Action>) { Calm(run) && Mild(run) }

  lemma QuietBoth(a: seq<Action>, b: seq<Action>)
    ensures Calm(a) && Calm(b) ==> Calm(a + b)
    ensures Mild(a) && Mild(b) ==> Mild(a + b)
  {
  }

  predicate AllOver(calls: seq<Call>) { forall k :: 0 <= k < |calls| ==> calls[k].Over? }

  predicate AllBegun(bursts: seq<Burst>) { forall k :: 0 <= k < |bursts| ==> bursts[k].Begun? }

  predicate AllEnded(keeps: seq<Keep>) { forall k :: 0 <= k < |keeps| ==> keeps[k].Ended? }

  predicate Empty(held: seq<nat>) { forall i :: 0 <= i < |held| ==> held[i] == 0 }

  // ---- Raises.

  /** A raise there is room for. */
  lemma Raise(s: State, i: nat) returns (run: seq<Action>)
    requires Sound(s) && i < NUM_CLASSES && s.committed + ClassSize(i) <= s.budget
    ensures Quiet(run)
    ensures After(s, run) == s.(committed := s.committed + ClassSize(i), calls := s.calls + [Over],
                                c := s.c.(target := s.c.target[i := s.c.target[i] + 1]))
  {
    var n := |s.calls|;
    var a := Next(s, Begin(i));
    var b := Next(a, Check(n));
    assert b.calls == s.calls + [Passed(i)];
    assert Next(b, Finish(n)).calls == s.calls + [Over];
    run := [Begin(i)] + ([Check(n)] + [Finish(n)]);
    AfterOne(s, Begin(i), [Check(n)] + [Finish(n)]);
    AfterOne(a, Check(n), [Finish(n)]);
    AfterMore(b, [], Finish(n));
    assert [] + [Finish(n)] == [Finish(n)];
  }

  /** Raises of one class until there is no room for another. */
  lemma Saturate(s: State, i: nat) returns (run: seq<Action>)
    requires Sound(s) && i < NUM_CLASSES
    ensures Quiet(run)
    ensures var t := After(s, run);
            && t == s.(committed := t.committed, c := s.c.(target := t.c.target), calls := t.calls)
            && t.committed + ClassSize(i) > s.budget && t.c.target[i] >= s.c.target[i]
            && (s.committed + ClassSize(i) <= s.budget ==> t.c.target[i] > s.c.target[i])
            && (AllOver(s.calls) ==> AllOver(t.calls))
    decreases s.budget - s.committed
  {
    if s.committed + ClassSize(i) > s.budget {
      return [];
    }
    var first := Raise(s, i);
    var u := After(s, first);
    var rest := Saturate(u, i);
    run := first + rest;
    AfterBoth(s, first, rest);
    QuietBoth(first, rest);
  }

  /** Calls that have added their size and wait. */
  lemma Inflate(s: State, i: nat, m: nat) returns (run: seq<Action>)
    requires Sound(s) && i < NUM_CLASSES
    ensures Quiet(run)
    ensures var t := After(s, run);
            && t == s.(committed := t.committed, calls := t.calls) && t.committed >= s.committed + m
            && (NeverPass(s.calls, s.budget) && s.committed + ClassSize(i) > s.budget ==> NeverPass(t.calls, s.budget))
    decreases m
  {
    if m == 0 {
      return [];
    }
    var u := Next(s, Begin(i));
    assert u.committed >= s.committed + 1;
    var rest := Inflate(u, i, m - 1);
    run := [Begin(i)] + rest;
    AfterOne(s, Begin(i), rest);
    QuietBoth([Begin(i)], rest);
  }

  /** None of the calls will pass its check under the budget `b`, or has. */
  predicate NeverPass(calls: seq<Call>, b: int) {
    forall k :: 0 <= k < |calls| ==> !calls[k].Passed? && (calls[k].Added? ==> calls[k].v > b)
  }

  lemma CallGoes(s: State, k: nat)
    requires Sound(s) && k < |s.calls| && !s.calls[k].Over?
    ensures var a := if s.calls[k].Added? then Check(k) else Finish(k);
            var u := Next(s, a);
            && Enabled(s, a)
            && u == s.(committed := u.committed, c := s.c.(target := u.c.target), calls := s.calls[k := u.calls[k]])
            && Net(u) == Net(s) && !u.calls[k].Added? && (a.Finish? ==> u.calls[k].Over?)
            && (NeverPass(s.calls, s.budget) ==> NeverPass(u.calls, s.budget) && u.c.target == s.c.target)
  {
    var a := if s.calls[k].Added? then Check(k) else Finish(k);
    SumUpdate(s.calls, k, Apply(s, a).calls[k], Refusable(s.budget));
  }

  /** The calls come to their end. */
  lemma CallsEnd(s: State, k: nat) returns (run: seq<Action>)
    requires Sound(s) && k <= |s.calls| && forall j :: 0 <= j < k ==> s.calls[j].Over?
    ensures Quiet(run)
    ensures var t := After(s, run);
            && t == s.(committed := t.committed, c := s.c.(target := t.c.target), calls := t.calls)
            && AllOver(t.calls) && Net(t) == Net(s) && (NeverPass(s.calls, s.budget) ==> t.c.target == s.c.target)
    decreases |s.calls| - k, if k < |s.calls| && s.calls[k].Added? then 1 else 0
  {
    if k == |s.calls| {
      return [];
    }
    if s.calls[k].Over? {
      run := CallsEnd(s, k + 1);
      return;
    }
    CallGoes(s, k);
    var a := if s.calls[k].Added? then Check(k) else Finish(k);
    var u := Next(s, a);
    var rest := CallsEnd(u, if a.Check? then k else k + 1);
    run := [a] + rest;
    AfterOne(s, a, rest);
    QuietBoth([a], rest);
  }

  // ---- Reserves.

  function Left(keep: Keep): nat {
    match keep
    case Allowed(_) => 5
    case Overdrawn(_) => 1
    case Peeks(_) => 4
    case Peeked(_, _) => 3
    case Waits(_) => 2
    case Admitted(_) => 1
    case Ended => 0
  }

  function AllLeft(keeps: seq<Keep>): nat {
    if keeps == [] then 0 else AllLeft(keeps[..|keeps| - 1]) + Left(keeps[|keeps| - 1])
  }

  lemma {:induction false} LeftUpdate(keeps: seq<Keep>, k: nat, keep: Keep)
    requires k < |keeps|
    ensures AllLeft(keeps[k := keep]) == AllLeft(keeps) - Left(keeps[k]) + Left(keep)
  {
    var last := |keeps| - 1;
    if k == last {
      assert keeps[k := keep][..last] == keeps[..last];
    } else {
      LeftUpdate(keeps[..last], k, keep);
      assert keeps[k := keep][..last] == keeps[..last][k := keep];
    }
  }

  /** A keep that can go on: one that has a lock, or any if none has. */
  lemma SomeKeepGoes(s: State) returns (k: nat)
    requires Sound(s) && !s.trim.Popping? && !AllEnded(s.keeps)
    ensures Enabled(s, KeepStep(k))
  {
    if j: nat :| j < |s.keeps| && s.keeps[j].Admitted? {
      k := j;
    } else {
      k :| k < |s.keeps| && !s.keeps[k].Ended?;
    }
  }

  lemma KeepGoes(s: State, k: nat)
    requires Sound(s) && Enabled(s, KeepStep(k))
    ensures var u := Next(s, KeepStep(k)); SameCounts(s, u) && u.trim == s.trim && AllLeft(u.keeps) < AllLeft(s.keeps)
  {
    LeftUpdate(s.keeps, k, Next(s, KeepStep(k)).keeps[k]);
  }

  /** The keeps come to their end. */
  lemma KeepsEnd(s: State) returns (run: seq<Action>)
    requires Sound(s) && !s.trim.Popping?
    ensures Quiet(run)
    ensures var t := After(s, run); SameCounts(s, t) && t.trim == s.trim && AllEnded(t.keeps)
    decreases AllLeft(s.keeps)
  {
    if AllEnded(s.keeps) {
      return [];
    }
    var k := SomeKeepGoes(s);
    var u := Next(s, KeepStep(k));
    KeepGoes(s, k);
    var rest := KeepsEnd(u);
    run := [KeepStep(k)] + rest;
    AfterOne(s, KeepStep(k), rest);
    QuietBoth([KeepStep(k)], rest);
  }

  /** A keep that has an allowance. */
  lemma Enters(s: State, i: nat) returns (run: seq<Action>)
    requires Sound(s) && i < NUM_CLASSES && s.c.refill[i] > 0
    ensures Quiet(run)
    ensures After(s, run) == s.(c := s.c.(refill := s.c.refill[i := s.c.refill[i] - 1]), keeps := s.keeps + [Peeks(i)])
  {
    var a := KeepStep(|s.keeps|);
    run := [Return(i)] + [a];
    AfterTwo(s, Return(i), a);
    assert Next(Next(s, Return(i)), a).keeps == s.keeps + [Peeks(i)];
  }

  /** It sees room without the lock and with it. */
  lemma SeesRoom(s: State, k: nat) returns (run: seq<Action>)
    requires Sound(s) && k < |s.keeps| && s.keeps[k].Peeks? && s.c.held[s.keeps[k].i] < s.c.target[s.keeps[k].i]
    requires !Locked(s.keeps, s.trim, s.keeps[k].i)
    ensures Quiet(run) && After(s, run) == s.(keeps := s.keeps[k := Admitted(s.keeps[k].i)])
  {
    var i, a := s.keeps[k].i, KeepStep(k);
    var u := Next(Next(s, a), a);
    assert u == s.(keeps := s.keeps[k := Waits(i)]);
    run := [a] + [a] + [a];
    AfterTwo(s, a, a);
    AfterMore(s, [a] + [a], a);
    assert !Locked(u.keeps, u.trim, i);
    assert Next(u, a).keeps == s.keeps[k := Admitted(i)];
  }

  /** A return that finds an allowance and room is admitted. */
  lemma IsAdmitted(s: State, i: nat) returns (run: seq<Action>)
    requires Sound(s) && i < NUM_CLASSES && s.c.refill[i] > 0 && s.c.held[i] < s.c.target[i]
    requires AllEnded(s.keeps) && !s.trim.Popping?
    ensures Quiet(run)
    ensures After(s, run)
         == s.(c := s.c.(refill := s.c.refill[i := s.c.refill[i] - 1]), keeps := s.keeps + [Admitted(i)])
  {
    var first := Enters(s, i);
    var u := After(s, first);
    var rest := SeesRoom(u, |s.keeps|);
    run := first + rest;
    AfterBoth(s, first, rest);
    QuietBoth(first, rest);
    assert u.keeps[|s.keeps| := Admitted(i)] == s.keeps + [Admitted(i)];
  }

  /** The last keep has been let in, and the others are over. */
  predicate OneAdmitted(keeps: seq<Keep>, i: nat) {
    && |keeps| > 0 && keeps[|keeps| - 1] == Admitted(i) && AllEnded(keeps[..|keeps| - 1])
  }

  /** It keeps its buffer. */
  lemma Appends(s: State, i: nat)
    requires Sound(s) && OneAdmitted(s.keeps, i) && i < NUM_CLASSES
    ensures var u := Next(s, KeepStep(|s.keeps| - 1));
            && u == s.(c := s.c.(held := s.c.held[i := s.c.held[i] + 1]), keeps := u.keeps) && AllEnded(u.keeps)
            && Enabled(s, KeepStep(|s.keeps| - 1))
  {
  }

  /** A reserve is emptied by Gets. */
  lemma Drain(s: State, i: nat) returns (run: seq<Action>)
    requires Sound(s) && i < NUM_CLASSES && AllEnded(s.keeps) && !s.trim.Popping?
    ensures Quiet(run) && After(s, run) == s.(c := s.c.(held := s.c.held[i := 0]))
    decreases s.c.held[i]
  {
    if s.c.held[i] == 0 {
      assert s.c.held[i := 0] == s.c.held;
      return [];
    }
    var u := Next(s, Take(i));
    var rest := Drain(u, i);
    run := [Take(i)] + rest;
    AfterOne(s, Take(i), rest);
    QuietBoth([Take(i)], rest);
  }

  lemma DrainAll(s: State, n: nat) returns (run: seq<Action>)
    requires Sound(s) && n <= NUM_CLASSES && AllEnded(s.keeps) && !s.trim.Popping?
    requires forall i :: n <= i < NUM_CLASSES ==> s.c.held[i] == 0
    ensures Quiet(run)
    ensures var t := After(s, run); t == s.(c := s.c.(held := t.c.held)) && Empty(t.c.held)
    decreases n
  {
    if n == 0 {
      return [];
    }
    var first := Drain(s, n - 1);
    var rest := DrainAll(After(s, first), n - 1);
    run := first + rest;
    AfterBoth(s, first, rest);
    QuietBoth(first, rest);
  }

  // ---- Bursts.

  function StepsLeft(b: Burst): nat {
    match b
    case Won(_) => 6
    case Looks(_) => 5
    case Aims(_, _) => 4
    case Moved(_, _) => 3
    case Settles(_) => 2
    case Fills(_, _) => 1
    case Begun => 0
  }

  /** What a burst that finds the reserves empty does next. */
  function Onward(s: State, k: nat): Action
    requires k < |s.bursts|
  {
    if s.bursts[k].Looks? then Aim(k, 0) else BurstStep(k)
  }

  lemma BurstGoes(s: State, k: nat)
    requires Sound(s) && Empty(s.c.held) && k < |s.bursts| && !s.bursts[k].Begun?
    ensures Enabled(s, Onward(s, k))
    ensures var u := Next(s, Onward(s, k));
            && u == s.(committed := u.committed, c := s.c.(target := u.c.target, refill := u.c.refill),
                       bursts := s.bursts[k := u.bursts[k]])
            && StepsLeft(u.bursts[k]) < StepsLeft(s.bursts[k]) && Lost(u) == Lost(s)
  {
    OnlyRacesLose(s, Onward(s, k));
  }

  /** The bursts from `k` on come to their end, but for the one at `but`. */
  lemma BurstsEnd(s: State, k: nat, but: nat) returns (run: seq<Action>)
    requires Sound(s) && Empty(s.c.held) && k <= |s.bursts|
    requires forall j :: 0 <= j < k && j != but ==> s.bursts[j].Begun?
    ensures Quiet(run)
    ensures var t := After(s, run);
            && t == s.(committed := t.committed, bursts := t.bursts,
                       c := s.c.(target := t.c.target, refill := t.c.refill))
            && |t.bursts| == |s.bursts| && (but < |s.bursts| ==> t.bursts[but] == s.bursts[but])
            && (forall j :: 0 <= j < |t.bursts| && j != but ==> t.bursts[j].Begun?) && Lost(t) == Lost(s)
    decreases |s.bursts| - k, if k < |s.bursts| then StepsLeft(s.bursts[k]) else 0
  {
    if k == |s.bursts| {
      return [];
    }
    if k == but || s.bursts[k].Begun? {
      run := BurstsEnd(s, k + 1, but);
      return;
    }
    BurstGoes(s, k);
    var a := Onward(s, k);
    var u := Next(s, a);
    var rest := BurstsEnd(u, k, but);
    run := [a] + rest;
    AfterOne(s, a, rest);
    QuietBoth([a], rest);
  }

  // ---- A trim alone.

  /** Nobody has moved what the trim has loaded, and there is nothing for it to pop. */
  predicate Alone(s: State)
    requires Sound(s)
  {
    && Empty(s.c.held) && !s.trim.Locking? && !s.trim.Popping?
    && (s.trim.Loaded? ==> s.trim.t == s.c.target[s.trim.left - 1]) && (s.trim.Held? ==> s.trim.h == 0)
  }

  /** More is committed than the budget and all the targets, so that a trim lowers every target to nothing. */
  predicate Swamped(s: State)
    requires Sound(s)
  {
    && s.committed > s.budget + Cost(s.c.target) + Taking(s.trim)
    && (s.trim.Seen? ==> s.trim.c > s.budget) && Cleared(s.trim, s.c.target)
  }

  /** The classes the trim has passed have no target. */
  predicate Cleared(trim: Trim, target: seq<nat>) {
    match trim
    case Off => false
    case Stored => true
    case Lowered(left) => forall j :: left - 1 <= j < |target| && j >= 0 ==> target[j] == 0
    case Held(left, _) => forall j :: left - 1 <= j < |target| && j >= 0 ==> target[j] == 0
    case _ => forall j :: trim.left <= j < |target| ==> target[j] == 0
  }

  function LeftToTrim(s: State): (nat, nat, nat)
    requires Sound(s)
  {
    match s.trim
    case Off => (0, 0, 0)
    case Stored => (NUM_CLASSES + 1, 0, 0)
    case At(left) => (left, if left > 0 then s.c.target[left - 1] else 0, 7)
    case Seen(left, _) => (left, s.c.target[left - 1], 6)
    case Above(left) => (left, s.c.target[left - 1], 5)
    case Loaded(left, _) => (left, s.c.target[left - 1], 4)
    case Taken(left) => (left, s.c.target[left - 1], 8)
    case Lowered(left) => (left, s.c.target[left - 1], 3)
    case Held(left, _) => (left, s.c.target[left - 1], 2)
    case _ => (s.trim.left, 0, 0)
  }

  predicate Less(a: (nat, nat, nat), b: (nat, nat, nat)) {
    a.0 < b.0 || (a.0 == b.0 && (a.1 < b.1 || (a.1 == b.1 && a.2 < b.2)))
  }

  lemma TrimGoes(s: State)
    requires Sound(s) && Alone(s) && !s.trim.Off?
    ensures Enabled(s, TrimStep)
    ensures var u := Next(s, TrimStep);
            u == s.(committed := u.committed, c := s.c.(target := u.c.target), trim := u.trim)
  {
  }

  lemma TrimAloneLosesNothing(s: State)
    requires Sound(s) && Alone(s) && Enabled(s, TrimStep)
    ensures Lost(Next(s, TrimStep)) == Lost(s)
  {
    OnlyRacesLose(s, TrimStep);
    NothingWritten(s);
  }

  lemma NothingWritten(s: State)
    requires Sound(s) && Alone(s)
    ensures WrittenOver(s, TrimStep) == 0
  {
  }

  lemma TrimStaysAlone(s: State)
    requires Sound(s) && Alone(s) && Enabled(s, TrimStep)
    ensures Alone(Next(s, TrimStep))
  {
  }

  lemma TrimCountsDown(s: State)
    requires Sound(s) && Alone(s) && Enabled(s, TrimStep)
    ensures Less(LeftToTrim(Next(s, TrimStep)), LeftToTrim(s))
  {
  }

  lemma TrimStaysSwamped(s: State)
    requires Sound(s) && Alone(s) && !s.trim.Off? && Swamped(s) && Enabled(s, TrimStep)
    ensures var u := Next(s, TrimStep); if u.trim.Off? then Empty(u.c.target) else Swamped(u)
  {
    if s.trim.Loaded? {
      StoreStaysSwamped(s);
    } else {
      OtherStaysSwamped(s);
    }
  }

  lemma StoreStaysSwamped(s: State)
    requires Sound(s) && Alone(s) && s.trim.Loaded? && Swamped(s)
    ensures var u := Next(s, TrimStep); !u.trim.Off? && Swamped(u)
  {
    if s.trim.t > 0 {
      CostLess(s.c.target, s.trim.left - 1);
      StoredIsSwamped(s, Next(s, TrimStep));
    }
  }

  lemma StoredIsSwamped(s: State, u: State)
    requires Sound(s) && Sound(u) && s.trim.Loaded? && Swamped(s) && u.trim == Taken(s.trim.left)
    requires u.committed == s.committed && u.budget == s.budget
    requires Cost(u.c.target) == Cost(s.c.target) - ClassSize(s.trim.left - 1)
    requires forall j :: s.trim.left <= j < NUM_CLASSES ==> u.c.target[j] == s.c.target[j]
    ensures Swamped(u)
  {
  }

  lemma OtherStaysSwamped(s: State)
    requires Sound(s) && Alone(s) && !s.trim.Off? && !s.trim.Loaded? && Swamped(s) && Enabled(s, TrimStep)
    ensures var u := Next(s, TrimStep); if u.trim.Off? then Empty(u.c.target) else Swamped(u)
  {
  }

  /** It runs to its end. */
  lemma TrimEnds(s: State) returns (run: seq<Action>)
    requires Sound(s) && Alone(s)
    ensures Quiet(run)
    ensures var t := After(s, run);
            && t == s.(committed := t.committed, c := s.c.(target := t.c.target), trim := Off) && Lost(t) == Lost(s)
            && (Swamped(s) ==> Empty(t.c.target)) && (s.trim.Off? ==> run == [])
    ensures forall n :: 0 <= n < |run| ==> run[n].TrimStep?
    decreases LeftToTrim(s).0, LeftToTrim(s).1, LeftToTrim(s).2
  {
    if s.trim.Off? {
      return [];
    }
    TrimGoes(s);
    TrimStaysAlone(s);
    TrimAloneLosesNothing(s);
    TrimCountsDown(s);
    if Swamped(s) {
      TrimStaysSwamped(s);
    }
    var u := Next(s, TrimStep);
    var rest := TrimEnds(u);
    run := [TrimStep] + rest;
    AfterOne(s, TrimStep, rest);
    QuietBoth([TrimStep], rest);
  }
}
