/** The buffer pool with its callers at once: any number of Gets that had to make a buffer, of Puts that begin a burst or
    keep a buffer, of Gets from a reserve, and one SetRetainedBytes at a time. Each atomic operation is one step, and so
    is each region under a class's lock of which others can see one store. A collection may come at any time, so a
    burst may begin at any time. */
module PoolSteps {
  import opened BufferPool

  /** reserveMore of class `i`: it has added its size, which made what is committed `v`; it has passed the check against
      the budget, or has not; it is over. */
  datatype Call = Added(i: nat, v: int) | Passed(i: nat) | Refused(i: nat) | Over

  /** beginRefill: it has won the swap of the epoch; found that the last burst was not used up, and `Looks` at what is
      held; `Aims` at that many; has `Moved` the target by `d`, which is not counted yet; `Settles` for the target it
      will load; and `Fills` the allowance with that. */
  datatype Burst = Won(i: nat) | Looks(i: nat) | Aims(i: nat, h: nat) | Moved(i: nat, d: int) | Settles(i: nat)
                 | Fills(i: nat, t: nat) | Begun

  /** keep, from a Put that found an allowance: it takes one off it; puts back what it took too much; peeks at what is
      held and at the target; waits for the lock; and is admitted under it. */
  datatype Keep = Allowed(i: nat) | Overdrawn(i: nat) | Peeks(i: nat) | Peeked(i: nat, h: nat) | Waits(i: nat)
                | Admitted(i: nat) | Ended

  /** SetRetainedBytes: the budget is stored; then trim, with `left` classes still to look at. It has `Seen` what is
      committed, is `Above` the budget, has `Loaded` the target, has `Taken` one off it; has `Lowered` it as far as it
      goes, found how many are `Held`, waits for the lock, and pops the reserve down to `len`. */
  datatype Trim = Off | Stored | At(left: nat) | Seen(left: nat, c: int) | Above(left: nat) | Loaded(left: nat, t: nat)
                | Taken(left: nat) | Lowered(left: nat) | Held(left: nat, h: nat) | Locking(left: nat)
                | Popping(left: nat, len: nat)

  /** How many buffers each class may hold and holds, and how many returns may still go to its reserve. */
  datatype Classes = Classes(target: seq<nat>, held: seq<nat>, refill: seq<int>)

  datatype State = State(committed: int, budget: int, c: Classes, calls: seq<Call>, bursts: seq<Burst>, keeps: seq<Keep>,
                         trim: Trim)

  /** `Aim` is the step at which a burst loads what is held. */
  datatype Action =
    | Begin(i: nat) | Check(k: nat) | Finish(k: nat)
    | Notice(i: nat) | Aim(k: nat, h: nat) | BurstStep(k: nat)
    | Return(i: nat) | KeepStep(k: nat)
    | Take(i: nat)
    | Set(bytes: nat) | TrimStep

  // ---- States.

  predicate ClassesFit(c: Classes) { |c.target| == |c.held| == |c.refill| == NUM_CLASSES }

  predicate CallsFit(calls: seq<Call>) { forall k :: 0 <= k < |calls| && !calls[k].Over? ==> calls[k].i < NUM_CLASSES }

  predicate BurstsFit(bursts: seq<Burst>) {
    forall k :: 0 <= k < |bursts| && !bursts[k].Begun? ==> bursts[k].i < NUM_CLASSES
  }

  predicate KeepsFit(keeps: seq<Keep>) {
    forall k :: 0 <= k < |keeps| && !keeps[k].Ended? ==> keeps[k].i < NUM_CLASSES
  }

  predicate TrimFits(trim: Trim) {
    match trim
    case Off => true
    case Stored => true
    case At(left) => left <= NUM_CLASSES
    case _ => 0 < trim.left <= NUM_CLASSES
  }

  predicate Sound(s: State) {
    ClassesFit(s.c) && CallsFit(s.calls) && BurstsFit(s.bursts) && KeepsFit(s.keeps) && TrimFits(s.trim)
  }

  /** Someone has the class's lock. */
  predicate Locked(keeps: seq<Keep>, trim: Trim, i: nat) {
    Admitted(i) in keeps || (trim.Popping? && trim.left == i + 1)
  }

  predicate Init(s: State) {
    && s.committed == 0 && s.c == Classes(Zeros(NUM_CLASSES), Zeros(NUM_CLASSES), Zeros(NUM_CLASSES))
    && s.calls == [] && s.bursts == [] && s.keeps == [] && s.trim.Off?
  }

  predicate AtRest(s: State) {
    && s.trim.Off? && (forall k :: 0 <= k < |s.calls| ==> s.calls[k].Over?)
    && (forall k :: 0 <= k < |s.bursts| ==> s.bursts[k].Begun?) && (forall k :: 0 <= k < |s.keeps| ==> s.keeps[k].Ended?)
  }

  // ---- Steps.

  predicate Enabled(s: State, a: Action) {
    match a
    case Begin(i) => i < NUM_CLASSES
    case Check(k) => k < |s.calls| && s.calls[k].Added?
    case Finish(k) => k < |s.calls| && (s.calls[k].Passed? || s.calls[k].Refused?)
    case Notice(i) => i < NUM_CLASSES
    case Aim(k, h) =>
      k < |s.bursts| && s.bursts[k].Looks? && s.bursts[k].i < |s.c.held| && s.c.held[s.bursts[k].i] == h
    case BurstStep(k) => k < |s.bursts| && !s.bursts[k].Looks? && !s.bursts[k].Begun?
    case Return(i) => i < |s.c.refill| && s.c.refill[i] > 0
    case KeepStep(k) =>
      k < |s.keeps| && !s.keeps[k].Ended? && (s.keeps[k].Waits? ==> !Locked(s.keeps, s.trim, s.keeps[k].i))
    case Take(i) => i < NUM_CLASSES && !Locked(s.keeps, s.trim, i)
    case Set(_) => s.trim.Off?
    case TrimStep =>
      !s.trim.Off? && (s.trim.Locking? && s.trim.left > 0 ==> !Locked(s.keeps, s.trim, s.trim.left - 1))
  }

  function Apply(s: State, a: Action): State
    requires Sound(s) && Enabled(s, a)
  {
    match a
    case Begin(i) =>
      s.(committed := s.committed + ClassSize(i), calls := s.calls + [Added(i, s.committed + ClassSize(i))])
    case Check(k) =>
      s.(calls := s.calls[k := if s.calls[k].v > s.budget then Refused(s.calls[k].i) else Passed(s.calls[k].i)])
    case Finish(k) =>
      var i := s.calls[k].i;
      if s.calls[k].Refused? then s.(committed := s.committed - ClassSize(i), calls := s.calls[k := Over])
      else s.(c := s.c.(target := s.c.target[i := s.c.target[i] + 1]), calls := s.calls[k := Over])
    case Notice(i) => s.(bursts := s.bursts + [Won(i)])
    case Aim(k, h) => s.(bursts := s.bursts[k := Aims(s.bursts[k].i, h)])
    case BurstStep(k) => Refilled(s, k)
    case Return(i) => s.(keeps := s.keeps + [Allowed(i)])
    case KeepStep(k) => Kept(s, k)
    case Take(i) => if s.c.held[i] == 0 then s else s.(c := s.c.(held := s.c.held[i := s.c.held[i] - 1]))
    case Set(bytes) => s.(budget := bytes, trim := Stored)
    case TrimStep => Trimmed(s)
  }

  function Refilled(s: State, k: nat): State
    requires Sound(s) && Enabled(s, BurstStep(k))
  {
    match s.bursts[k]
    case Won(i) => s.(bursts := s.bursts[k := if s.c.refill[i] > 0 then Looks(i) else Settles(i)])
    case Aims(i, h) =>
      s.(c := s.c.(target := s.c.target[i := h]), bursts := s.bursts[k := Moved(i, h - s.c.target[i])])
    case Moved(i, d) => s.(committed := s.committed + d * ClassSize(i), bursts := s.bursts[k := Settles(i)])
    case Settles(i) => s.(bursts := s.bursts[k := Fills(i, s.c.target[i])])
    case Fills(i, t) => s.(c := s.c.(refill := s.c.refill[i := t]), bursts := s.bursts[k := Begun])
  }

  function Kept(s: State, k: nat): State
    requires Sound(s) && Enabled(s, KeepStep(k))
  {
    match s.keeps[k]
    case Allowed(i) =>
      var left := s.c.refill[i] - 1;
      s.(c := s.c.(refill := s.c.refill[i := left]), keeps := s.keeps[k := if left < 0 then Overdrawn(i) else Peeks(i)])
    case Overdrawn(i) => s.(c := s.c.(refill := s.c.refill[i := 0]), keeps := s.keeps[k := Ended])
    case Peeks(i) => s.(keeps := s.keeps[k := Peeked(i, s.c.held[i])])
    case Peeked(i, h) => s.(keeps := s.keeps[k := if h >= s.c.target[i] then Ended else Waits(i)])
    case Waits(i) => s.(keeps := s.keeps[k := if s.c.held[i] >= s.c.target[i] then Ended else Admitted(i)])
    case Admitted(i) => s.(c := s.c.(held := s.c.held[i := s.c.held[i] + 1]), keeps := s.keeps[k := Ended])
  }

  function Trimmed(s: State): State
    requires Sound(s) && Enabled(s, TrimStep)
  {
    match s.trim
    case Stored => s.(trim := if s.committed > s.budget then At(NUM_CLASSES) else Off)
    case At(left) => s.(trim := if left == 0 then Off else Seen(left, s.committed))
    case Seen(left, c) => s.(trim := if c > s.budget then Above(left) else Lowered(left))
    case Above(left) => s.(trim := Loaded(left, s.c.target[left - 1]))
    case Loaded(left, t) =>
      if t == 0 then s.(trim := Lowered(left))
      else s.(c := s.c.(target := s.c.target[left - 1 := t - 1]), trim := Taken(left))
    case Taken(left) => s.(committed := s.committed - ClassSize(left - 1), trim := At(left))
    case Lowered(left) => s.(trim := Held(left, s.c.held[left - 1]))
    case Held(left, h) => s.(trim := if h <= s.c.target[left - 1] then At(left - 1) else Locking(left))
    case Locking(left) => s.(trim := Popping(left, s.c.held[left - 1]))
    case Popping(left, len) =>
      if len > s.c.target[left - 1] then s.(trim := Popping(left, len - 1))
      else s.(c := s.c.(held := s.c.held[left - 1 := len]), trim := At(left - 1))
  }

  lemma StepFits(s: State, a: Action)
    requires Sound(s) && Enabled(s, a)
    ensures Sound(Apply(s, a))
  {
    match a {
      case BurstStep(k) => BurstFits(s, k);
      case KeepStep(k) => KeepFits(s, k);
      case TrimStep => NextTrimFits(s);
      case _ =>
    }
  }

  lemma BurstFits(s: State, k: nat)
    requires Sound(s) && Enabled(s, BurstStep(k))
    ensures Sound(Refilled(s, k))
  {
  }

  lemma KeepFits(s: State, k: nat)
    requires Sound(s) && Enabled(s, KeepStep(k))
    ensures Sound(Kept(s, k))
  {
  }

  lemma NextTrimFits(s: State)
    requires Sound(s) && Enabled(s, TrimStep)
    ensures Sound(Trimmed(s))
  {
  }

  /** A step, passed over if it cannot be taken. */
  function Next(s: State, a: Action): (t: State)
    requires Sound(s)
    ensures Sound(t)
  {
    if Enabled(s, a) then StepFits(s, a); Apply(s, a) else s
  }

  /** Every run: any order of any steps. */
  function After(s: State, run: seq<Action>): (t: State)
    requires Sound(s)
    ensures Sound(t)
  {
    if run == [] then s else Next(After(s, run[..|run| - 1]), run[|run| - 1])
  }

  lemma AfterMore(s: State, run: seq<Action>, a: Action)
    requires Sound(s)
    ensures After(s, run + [a]) == Next(After(s, run), a)
  {
    assert (run + [a])[..|run|] == run;
  }

  lemma Split(run: seq<Action>, more: seq<Action>)
    requires more != []
    ensures var init, last := more[..|more| - 1], more[|more| - 1];
            run + more == run + init + [last] && more == init + [last]
  {
  }

  lemma {:induction false} AfterBoth(s: State, run: seq<Action>, more: seq<Action>)
    requires Sound(s)
    ensures After(s, run + more) == After(After(s, run), more)
  {
    if more == [] {
      assert run + more == run;
    } else {
      var init, last := more[..|more| - 1], more[|more| - 1];
      AfterBoth(s, run, init);
      Split(run, more);
      AfterMore(s, run + init, last);
      AfterMore(After(s, run), init, last);
    }
  }

  lemma AfterOne(s: State, a: Action, more: seq<Action>)
    requires Sound(s) && Enabled(s, a)
    ensures After(s, [a] + more) == After(Next(s, a), more)
  {
    AfterBoth(s, [a], more);
    AfterMore(s, [], a);
    assert [] + [a] == [a];
  }

  lemma AfterTwo(s: State, a: Action, b: Action)
    requires Sound(s)
    ensures After(s, [a] + [b]) == Next(Next(s, a), b)
  {
    AfterMore(s, [a], b);
    AfterMore(s, [], a);
    assert [] + [a] == [a];
  }

  // ---- Which futures.

  /** The budget is not set again, and no burst begins. */
  predicate Calm(run: seq<Action>) { forall n :: 0 <= n < |run| ==> !run[n].Set? && !run[n].Notice? }

  /** The budget is not set again, and no burst aims at a reserve with something in it. */
  predicate Mild(run: seq<Action>) { forall n :: 0 <= n < |run| ==> !run[n].Set? && (run[n].Aim? ==> run[n].h == 0) }

  // ---- What the steps leave alone.

  /** Only `c`, the keeps and the trim's own place may differ. */
  predicate SameCounts(s: State, t: State) {
    && t.committed == s.committed && t.budget == s.budget && t.c.target == s.c.target
    && t.calls == s.calls && t.bursts == s.bursts
  }
}
