/** A connection's deadline and its lazy timer: setting, moving and clearing it,
    while the timer's callbacks race it for the connection's lock. Times are ticks of
    one clock, and 0 is the zero time, no deadline. */
module Deadline {
  import opened Basics

  /** `armed` is when the timer fires, `due` when the connection takes it to be set for. `waiting` callbacks have yet
      to get the lock; `decided` ones have found the deadline passed and are on their way to close. `spent` is the
      deadline a callback let pass because no output was left for it to be about. `early` is that a deadline has
      closed the connection while none, or a later one, was set. */
  datatype State = State(
    now: nat, at: nat, t: Timer, waiting: nat, decided: nat, spent: nat, open: bool, early: bool)

  datatype Timer = Timer(due: nat, armed: Option<nat>)

  datatype Action = Tick | Set(at: nat) | Fire | Expire(about: bool) | CloseNow | Shut

  predicate Init(s: State) {
    s.now > 0 && s.at == 0 && s.t == Timer(0, None) && s.waiting == s.decided == s.spent == 0 && s.open && !s.early
  }

  predicate Enabled(s: State, a: Action) {
    match a
    case Fire => s.t.armed.Some? && s.t.armed.value <= s.now
    case Expire(_) => s.waiting > 0
    case CloseNow => s.decided > 0
    case _ => true
  }

  /** armDeadlineLocked, unless the connection is closing. */
  function SetTo(s: State, at: nat): State {
    if !s.open || s.at == at then s
    else if at == 0 || (s.t.due != 0 && at >= s.t.due) then s.(at := at)
    else s.(at := at, t := Timer(at, Some(at)))
  }

  /** expireDeadline up to where it gives up the lock. `about` says there is something for the deadline to be about:
      always for the read deadline, output still queued for the write one. */
  function Expired(s: State, about: bool): State {
    var r := s.(waiting := if s.waiting > 0 then s.waiting - 1 else 0, t := s.t.(due := 0));
    if s.at == 0 || !s.open then r
    else if s.at > s.now then r.(t := Timer(s.at, Some(s.at)))
    else if about then r.(decided := s.decided + 1)
    else r.(spent := s.at)
  }

  function Apply(s: State, a: Action): State
    requires Enabled(s, a)
  {
    match a
    case Tick => s.(now := s.now + 1)
    case Set(at) => SetTo(s, at)
    case Fire => s.(t := s.t.(armed := None), waiting := s.waiting + 1)
    case Expire(about) => Expired(s, about)
    case CloseNow =>
      s.(decided := s.decided - 1, open := false, early := s.early || (s.open && (s.at == 0 || s.at > s.now)))
    case Shut => s.(open := false)
  }

  function After(s: State, run: seq<Action>): State {
    if run == [] then s
    else
      var before := After(s, run[..|run| - 1]);
      var a := run[|run| - 1];
      if Enabled(before, a) then Apply(before, a) else before
  }

  // ---- What every step keeps.

  /** While the timer is taken to be set, it is, for no later, or its callback is on its way. */
  predicate TimerOk(s: State) { s.t.due != 0 ==> (s.t.armed.Some? && s.t.armed.value <= s.t.due) || s.waiting > 0 }

  /** A deadline is watched by the timer, or has passed and is being acted on. */
  predicate Watched(s: State) {
    s.open && s.at != 0 ==>
      (s.t.due != 0 && s.t.due <= s.at) || (s.at <= s.now && (s.decided > 0 || s.spent == s.at))
  }

  predicate Inv(s: State) { TimerOk(s) && Watched(s) }

  lemma {:induction false} RunKeeps(s: State, run: seq<Action>)
    requires Init(s)
    ensures Inv(After(s, run))
  {
    if run != [] {
      RunKeeps(s, run[..|run| - 1]);
      var before, a := After(s, run[..|run| - 1]), run[|run| - 1];
      if Enabled(before, a) {
        StepKeeps(before, a);
      }
    }
  }

  lemma StepKeeps(s: State, a: Action)
    requires Inv(s) && Enabled(s, a)
    ensures Inv(Apply(s, a))
  {
  }

  /** A deadline ahead has a timer set for no later than it, or a callback waiting for the lock; one that has passed
      has that too, or a callback closing for it, or was let pass with nothing for it to be about. */
  lemma DeadlineIsWatched(s: State, run: seq<Action>)
    requires Init(s) && After(s, run).open && After(s, run).at != 0
    ensures var r := After(s, run);
            && (r.at > r.now ==> (r.t.armed.Some? && r.t.armed.value <= r.at) || r.waiting > 0)
            && (r.at <= r.now ==>
                  (r.t.armed.Some? && r.t.armed.value <= r.now) || r.waiting > 0 || r.decided > 0 || r.spent == r.at)
  {
    RunKeeps(s, run);
  }

  /** Setting a deadline of an open connection sets it, and one that has a timer set for later, or none, sets the timer;
      one of a closed connection does nothing. */
  lemma SetSets(s: State, at: nat)
    ensures var r := SetTo(s, at);
            && (s.open ==> r.at == at) && (!s.open ==> r == s) && r.open == s.open && r.now == s.now
            && r.waiting == s.waiting && r.decided == s.decided
            && (s.open && s.at != at && at != 0 && (s.t.due == 0 || at < s.t.due) ==> r.t == Timer(at, Some(at)))
  {
  }

  // ---- What a passed deadline does.

  /** A callback that gets the lock of an open connection: past its deadline it goes on to close if there is something for
      it to be about, and lets it pass if not; before it the timer is set again for the rest. */
  lemma ExpiryActs(s: State, about: bool)
    requires Enabled(s, Expire(about)) && s.open && s.at != 0
    ensures var r := Apply(s, Expire(about));
            && r.waiting == s.waiting - 1 && r.at == s.at && r.open
            && (s.at <= s.now && about ==> r.decided == s.decided + 1 && r.spent == s.spent && r.t.due == 0)
            && (s.at <= s.now && !about ==> r.decided == s.decided && r.spent == s.at && r.t.due == 0)
            && (s.at > s.now ==> r.decided == s.decided && r.spent == s.spent && r.t == Timer(s.at, Some(s.at)))
  {
  }

  /** One that has decided to close does. */
  lemma DecidedCloses(s: State)
    requires s.decided > 0
    ensures Enabled(s, CloseNow) && !Apply(s, CloseNow).open && Apply(s, CloseNow).decided == s.decided - 1
  {
  }

  predicate Always(run: seq<Action>, about: bool) {
    forall n :: 0 <= n < |run| && run[n].Expire? ==> run[n].about == about
  }

  /** Where there is always something for it to be about, as for the read deadline, no deadline is let pass: one that has
      passed on an open connection has a timer or callback on its way to see it, or one that is closing. */
  lemma {:induction false} PassedIsActedOn(s: State, run: seq<Action>)
    requires Init(s) && Always(run, true)
    ensures var r := After(s, run);
            && r.spent == 0
            && (r.open && 0 != r.at <= r.now ==>
                  (r.t.armed.Some? && r.t.armed.value <= r.now) || r.waiting > 0 || r.decided > 0)
  {
    RunKeeps(s, run);
    NeverSpent(s, run);
  }

  lemma {:induction false} NeverSpent(s: State, run: seq<Action>)
    requires Init(s) && Always(run, true)
    ensures After(s, run).spent == 0
  {
    if run != [] {
      NeverSpent(s, run[..|run| - 1]);
    }
  }

  /** Where there never is, no deadline closes the connection. */
  lemma {:induction false} NothingToBeAbout(s: State, run: seq<Action>)
    requires Init(s) && Always(run, false) && forall n :: 0 <= n < |run| ==> !run[n].Shut?
    ensures After(s, run).open && After(s, run).decided == 0
  {
    if run != [] {
      NothingToBeAbout(s, run[..|run| - 1]);
    }
  }

  // ---- When a deadline can close too soon.

  predicate NoSets(run: seq<Action>) { forall i :: 0 <= i < |run| ==> !run[i].Set? }

  /** From a deadline set with no callback past its decision, one that decides sees it passed. */
  lemma {:induction false} NotEarly(s: State, more: seq<Action>)
    requires !s.early && s.decided == 0 && NoSets(more)
    ensures var r := After(s, more);
            r.at == s.at && !r.early && r.now >= s.now && (r.decided > 0 ==> r.at != 0 && r.at <= r.now)
  {
    if more != [] {
      NotEarly(s, more[..|more| - 1]);
      var before, a := After(s, more[..|more| - 1]), more[|more| - 1];
      if Enabled(before, a) {
        StaysDue(before, a);
      }
    }
  }

  lemma StaysDue(s: State, a: Action)
    requires !s.early && (s.decided > 0 ==> s.at != 0 && s.at <= s.now) && Enabled(s, a) && !a.Set?
    ensures var r := Apply(s, a);
            r.at == s.at && !r.early && r.now >= s.now && (r.decided > 0 ==> r.at != 0 && r.at <= r.now)
  {
  }

  /** Setting a deadline ahead, or none, holds against every timer already on its way exactly if none of its callbacks has
      decided to close yet. */
  lemma SetHoldsUnlessDecided(s: State, run: seq<Action>, at: nat)
    requires Init(s) && After(s, run).open && !After(s, run).early
    requires at == 0 || at > After(s, run).now
    ensures After(s, run).decided == 0 <==>
              forall more :: NoSets(more) ==> !After(SetTo(After(s, run), at), more).early
  {
    var r := After(s, run);
    var t := SetTo(r, at);
    if r.decided == 0 {
      forall more | NoSets(more)
        ensures !After(t, more).early
      {
        NotEarly(t, more);
      }
    } else {
      var more := [CloseNow];
      assert more[..0] == [];
      assert NoSets(more) && After(t, more) == Apply(t, CloseNow) && After(t, more).early;
    }
  }

  lemma Extend(s: State, run: seq<Action>, a: Action)
    requires Enabled(After(s, run), a)
    ensures After(s, run + [a]) == Apply(After(s, run), a)
  {
    assert (run + [a])[..|run|] == run;
  }

  /** Such a run: the deadline passes, its callback decides, and then more time is given, too late. */
  lemma MoreTimeCanComeTooLate(s: State) returns (run: seq<Action>)
    requires Init(s)
    ensures After(s, run).early && After(s, run).at > After(s, run).now
  {
    run := [];
    Extend(s, run, Set(s.now));
    run := run + [Set(s.now)];
    Extend(s, run, Fire);
    run := run + [Fire];
    Extend(s, run, Expire(true));
    run := run + [Expire(true)];
    Extend(s, run, Set(s.now + 10));
    run := run + [Set(s.now + 10)];
    Extend(s, run, CloseNow);
    run := run + [CloseNow];
  }
}
