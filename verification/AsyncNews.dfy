/** What the handlers of arpc's asynchronous calls are told, over every interleaving: each the response that came for it,
    or what came first instead. */
module AsyncNews {
  import opened Basics
  import opened AsyncCalls

  // ---- What takes a waiting handler.

  /** What came for a call. */
  function Cause(move: Move): Outcome {
    match move
    case Response(msg) => Answer(msg)
    case _ => TimedOut
  }

  /** A response or the timer that finds a handler waiting takes it, to run it with what came; the response stops the
      timer. One that does not find it changes nothing it will be told. */
  lemma WaitingIsTaken(c: Call, move: Move)
    requires CallOk(c) && CanMove(c, move) && (move.Response? || move.TimerRuns?)
    ensures var d := Moved(c, move);
            && (c.n.waiting ==> && !d.n.waiting && d.n.due == c.n.due + 1 && d.n.ran == c.n.ran
                                && !d.timer.Armed? && d.news == c.news.(took := Some(Cause(move))))
            && (!c.n.waiting ==> d.n == c.n && d.news == c.news)
  {
  }

  /** So does the loss of the connection, of every call there is. */
  lemma AllAreLost(s: State, id: nat)
    requires id in s.calls
    ensures var c, d := s.calls[id], Apply(s, Lose).calls[id];
            && (c.n.waiting ==> && !d.n.waiting && d.n.due == c.n.due + 1 && d.n.ran == c.n.ran
                                && d.news == c.news.(took := Some(Broken)))
            && (!c.n.waiting ==> d == c)
  {
  }

  /** The first of a follower's own timer and its leader runs its handler, with the timeout or with what the leader let it
      go with, and the other does not. */
  lemma FirstRuns(c: Call, move: Move)
    requires CallOk(c) && CanMove(c, move) && (move.Fire? || move.SubExpires?)
    ensures var d := Moved(c, move);
            && (!c.fired ==> d.fired && d.n.ran == c.n.ran + 1 && !d.subTimer.Armed?
                             && d.news.claimed == Some(if move.Fire? then The(c.news.let) else TimedOut))
            && (c.fired ==> d.fired && d.n.ran == c.n.ran && d.news == c.news)
  {
  }

  /** A send that fails has its request taken back, and the error returned, unless its handler was taken meanwhile; then it
      is not the caller's error to report. */
  lemma FailureIsReported(c: Call, ok: bool)
    requires CallOk(c)
    ensures c.pc.Sending? ==> Moved(c, Send(ok)).pc == (if ok then Returned(true) else Unsent)
    ensures c.pc.Unsent? && c.n.waiting ==>
              var d := Moved(c, TakeBack);
              && !d.n.waiting && d.n.due == c.n.due && d.n.ran == c.n.ran && !d.timer.Armed?
              && d.pc == if c.role.Leader? then Withdrawing else Returned(false)
    ensures c.pc.Unsent? && !c.n.waiting ==> Moved(c, TakeBack) == c.(pc := Returned(true))
  {
  }

  /** A call for a key that is in flight follows the one that leads it; another leads it from then on, until its request is
      finished. */
  lemma KeyIsShared(s: State, id: nat, k: nat, o: Outcome)
    requires Inv(s) && id !in s.calls
    ensures var t := Acquire(s, id, Some(k));
            && (k in s.inFlight ==> t.calls[id].role == Follower(s.inFlight[k]) && t.calls[id].subTimer.Armed?
                                    && t.inFlight == s.inFlight)
            && (k !in s.inFlight ==> t.calls[id].role == Leader && k in t.inFlight && t.inFlight[k] == id
                                     && id in t.shared && t.shared[id] == Shared(k, false, [])
                                     && FinishShared(t, id, o).inFlight == s.inFlight)
  {
    var t := Acquire(s, id, Some(k));
    if k !in s.inFlight {
      assert t.inFlight - {k} == s.inFlight;
    }
  }

  /** A follower that comes before the request is finished joins it, and one that comes after makes its own. */
  lemma JoinOrFallBack(s: State, id: nat)
    requires Enabled(s, Join(id))
    ensures var c, t := s.calls[id], Joined(s, id);
            var sh := s.shared[c.role.of];
            && (!sh.finished ==> t.calls[id].pc == Returned(true) && id in t.shared[c.role.of].subs)
            && (sh.finished ==> t.calls[id].pc == Stopping && t.shared == s.shared)
  {
  }

  // ---- What a handler has run with.

  /** The handler's run for its own request is with what took it, and a follower's with its leader's outcome or with the
      timeout. */
  predicate Heard(c: Call) {
    && (c.news.took.Some? <==> c.once.Made? && !c.n.waiting)
    && (c.news.own.Some? <==> c.n.ran > One(c.fired)) && (c.news.own.Some? ==> c.news.own == c.news.took)
    && (c.fired <==> c.news.claimed.Some?) && (c.n.firing > 0 ==> c.news.let.Some?)
    && (c.fired ==> c.news.claimed.value == TimedOut || c.news.claimed == c.news.let)
    && (c.n.finishing > 0 ==> c.news.own.Some?) && (c.news.let.Some? ==> Joins(c) && (c.fired || c.n.firing > 0))
  }

  lemma MoveIsHeard(c: Call, move: Move)
    requires CallOk(c) && Heard(c) && CanMove(c, move)
    ensures Heard(Moved(c, move))
  {
  }

  /** What a call has heard stays as it is. */
  predicate Remembers(c: Call, d: Call) {
    && (c.news.took.Some? ==> d.news.took == c.news.took) && (c.news.own.Some? ==> d.news.own == c.news.own)
    && (c.news.let.Some? ==> d.news.let == c.news.let) && (c.pc == Returned(false) ==> d.pc == Returned(false))
    && (c.role != d.role ==> c.pc == Stopping)
  }

  lemma MoveRemembers(c: Call, move: Move)
    requires CallOk(c) && Heard(c) && CanMove(c, move)
    ensures Remembers(c, Moved(c, move)) && Moved(c, move).news.let == c.news.let
  {
  }

  /** What a leader's followers are let go with: what its own handler ran with, or that it did not send. */
  predicate Said(leader: Call, o: Outcome) {
    leader.news.own == Some(o) || (o == NotSent && leader.pc == Returned(false))
  }

  ghost predicate Told(s: State) {
    && (forall id :: id in s.calls ==> Heard(s.calls[id]))
    && (forall id, i :: id in s.shared && 0 <= i < |s.shared[id].subs| ==> LetLater(s, id, s.shared[id].subs[i]))
    && (forall id :: id in s.calls && s.calls[id].news.let.Some? ==> LetGo(s, s.calls[id]))
  }

  /** A follower that is listed has not been let go. */
  predicate LetLater(s: State, id: nat, x: nat) {
    x in s.calls && s.calls[x].role == Follower(id) && s.calls[x].news.let.None?
  }

  /** One that has was with what its leader said. */
  predicate LetGo(s: State, c: Call) {
    c.news.let.Some? && c.role.Follower? && c.role.of in s.calls && Said(s.calls[c.role.of], c.news.let.value)
  }

  /** Changing one call leaves the others told. */
  lemma SetTells(s: State, id: nat, d: Call)
    requires Told(s) && Inv(s) && Heard(d)
    requires id in s.calls ==> Remembers(s.calls[id], d) && d.news.let == s.calls[id].news.let
    requires id !in s.calls ==> d.news.let.None?
    ensures Told(Set(s, id, d))
  {
    var t := Set(s, id, d);
    forall x | x in t.calls && t.calls[x].news.let.Some?
      ensures LetGo(t, t.calls[x])
    {
      assert LetGo(s, s.calls[x]);
    }
    forall k, i | k in s.shared && 0 <= i < |s.shared[k].subs|
      ensures LetLater(t, k, s.shared[k].subs[i])
    {
      assert LetLater(s, k, s.shared[k].subs[i]) && SubsOk(s.calls, s.shared[k].subs);
    }
  }

  lemma BeginTells(s: State, id: nat, key: Option<nat>)
    requires Told(s) && Inv(s) && id !in s.calls
    ensures Told(Acquire(s, id, key))
  {
    var t := Acquire(s, id, key);
    SetTells(s, id, t.calls[id]);
    if key.Some? && key.value !in s.inFlight {
      var u := Set(s, id, t.calls[id]);
      assert t.calls == u.calls && t.shared == u.shared[id := Shared(key.value, false, [])];
      MoreShared(u, t);
    }
  }

  /** Nobody new is listed. */
  lemma MoreShared(u: State, t: State)
    requires Told(u) && t.calls == u.calls
    requires forall id :: id in t.shared ==> t.shared[id].subs == [] || (id in u.shared && t.shared[id] == u.shared[id])
    ensures Told(t)
  {
    forall id, i | id in t.shared && 0 <= i < |t.shared[id].subs|
      ensures LetLater(t, id, t.shared[id].subs[i])
    {
      assert LetLater(u, id, u.shared[id].subs[i]);
    }
    forall id | id in t.calls && t.calls[id].news.let.Some?
      ensures LetGo(t, t.calls[id])
    {
      assert LetGo(u, u.calls[id]);
    }
  }

  lemma JoinTells(s: State, id: nat)
    requires Told(s) && Inv(s) && Enabled(s, Join(id))
    ensures Told(Joined(s, id))
  {
    var c := s.calls[id];
    var sh := s.shared[c.role.of];
    if sh.finished {
      SetTells(s, id, c.(pc := Stopping));
    } else {
      SetTells(s, id, c.(pc := Returned(true)));
      var u, t := Set(s, id, c.(pc := Returned(true))), Joined(s, id);
      forall k, i | k in t.shared && 0 <= i < |t.shared[k].subs|
        ensures LetLater(t, k, t.shared[k].subs[i])
      {
        if k != c.role.of || i < |sh.subs| {
          assert LetLater(u, k, u.shared[k].subs[i]);
        }
      }
      forall x | x in t.calls && t.calls[x].news.let.Some?
        ensures LetGo(t, t.calls[x])
      {
        assert LetGo(u, u.calls[x]);
      }
    }
  }

  lemma FiresTells(c: Call, k: nat, o: Outcome)
    requires CallOk(c) && Heard(c) && (k > 0 ==> Joins(c) && c.news.let.None?)
    ensures var d := Fires(c, k, o);
            && Heard(d) && d.news.own == c.news.own && d.pc == c.pc && d.role == c.role
            && d.news.let == if k > 0 then Some(o) else c.news.let
  {
  }

  /** How often a call is listed. */
  lemma Listed(s: State, id: nat, x: nat)
    requires Told(s) && Inv(s) && id in s.shared && x in s.calls
    ensures multiset(s.shared[id].subs)[x] > 0 ==> LetLater(s, id, x) && Joins(s.calls[x])
  {
    var subs := s.shared[id].subs;
    if x in multiset(subs) {
      var i :| 0 <= i < |subs| && subs[i] == x;
      assert LetLater(s, id, subs[i]) && SubsOk(s.calls, subs);
    }
  }

  /** A shared request's followers are let go with what its leader says, `d` being the leader as it then is. */
  lemma FinishTells(s: State, id: nat, o: Outcome, d: Call)
    requires Told(s) && Inv(s) && id in s.shared && Heard(d) && Said(d, o)
    requires Remembers(s.calls[id], d) && d.news.let == s.calls[id].news.let && d.role == s.calls[id].role
    ensures Told(Set(FinishShared(s, id, o), id, d))
  {
    var t := Set(FinishShared(s, id, o), id, d);
    forall x | x in t.calls
      ensures Heard(t.calls[x])
    {
      if x != id {
        FinishHears(s, id, o, x);
      }
    }
    FinishLetsGo(s, id, o, d);
    FinishLetsLater(s, id, o, d);
  }

  lemma FinishHears(s: State, id: nat, o: Outcome, x: nat)
    requires Told(s) && Inv(s) && id in s.shared && x in s.calls
    ensures Heard(FinishShared(s, id, o).calls[x])
  {
    Listed(s, id, x);
    FiresTells(s.calls[x], multiset(s.shared[id].subs)[x], o);
  }

  lemma FinishLetsGo(s: State, id: nat, o: Outcome, d: Call)
    requires Told(s) && Inv(s) && id in s.shared && Said(d, o)
    requires Remembers(s.calls[id], d) && d.news.let == s.calls[id].news.let && d.role == s.calls[id].role
    ensures var t := Set(FinishShared(s, id, o), id, d);
            forall x :: x in t.calls && t.calls[x].news.let.Some? ==> LetGo(t, t.calls[x])
  {
    var t := Set(FinishShared(s, id, o), id, d);
    forall x | x in t.calls && t.calls[x].news.let.Some?
      ensures LetGo(t, t.calls[x])
    {
      Listed(s, id, x);
      if s.calls[x].news.let.Some? {
        assert LetGo(s, s.calls[x]);
        SaidStays(s, id, o, d, s.calls[x].role.of, s.calls[x].news.let.value);
      }
    }
  }

  lemma SaidStays(s: State, id: nat, o: Outcome, d: Call, of: nat, said: Outcome)
    requires id in s.shared && of in s.calls && id in s.calls && Said(s.calls[of], said) && Remembers(s.calls[id], d)
    ensures var t := Set(FinishShared(s, id, o), id, d); of in t.calls && Said(t.calls[of], said)
  {
  }

  lemma FinishLetsLater(s: State, id: nat, o: Outcome, d: Call)
    requires Told(s) && Inv(s) && id in s.shared
    requires d.news.let == s.calls[id].news.let && d.role == s.calls[id].role
    ensures var t := Set(FinishShared(s, id, o), id, d);
            forall k, i :: k in t.shared && 0 <= i < |t.shared[k].subs| ==> LetLater(t, k, t.shared[k].subs[i])
  {
    var t := Set(FinishShared(s, id, o), id, d);
    forall k, i | k in t.shared && 0 <= i < |t.shared[k].subs|
      ensures LetLater(t, k, t.shared[k].subs[i])
    {
      var x := s.shared[k].subs[i];
      assert LetLater(s, k, x);
      Listed(s, id, x);
    }
  }

  lemma LoseTells(s: State)
    requires Told(s) && Inv(s)
    ensures Told(Apply(s, Lose))
  {
    var t := Apply(s, Lose);
    forall x | x in s.calls
      ensures Heard(t.calls[x]) && Remembers(s.calls[x], t.calls[x]) && t.calls[x].news.let == s.calls[x].news.let
      ensures t.calls[x].role == s.calls[x].role
    {
      assert CallOk(s.calls[x]) && Heard(s.calls[x]);
    }
    forall x | x in t.calls && t.calls[x].news.let.Some?
      ensures LetGo(t, t.calls[x])
    {
      assert LetGo(s, s.calls[x]);
    }
    forall k, i | k in t.shared && 0 <= i < |t.shared[k].subs|
      ensures LetLater(t, k, t.shared[k].subs[i])
    {
      assert LetLater(s, k, s.shared[k].subs[i]);
    }
  }

  lemma StepTells(s: State, a: Action)
    requires Told(s) && Inv(s) && Enabled(s, a)
    ensures Told(Apply(s, a))
  {
    match a {
      case Begin(id, key) => BeginTells(s, id, key);
      case Join(id) => JoinTells(s, id);
      case GiveUp(id) =>
        var d := FinishShared(s, id, NotSent).calls[id].(pc := Returned(false));
        Listed(s, id, id);
        FinishTells(s, id, NotSent, d);
      case Finish(id) =>
        var o := The(s.calls[id].news.took);
        var d := Finishes(FinishShared(s, id, o), id).calls[id];
        Listed(s, id, id);
        FinishTells(s, id, o, d);
      case Lose => LoseTells(s);
      case Own(id, move) =>
        MoveIsHeard(s.calls[id], move);
        MoveRemembers(s.calls[id], move);
        SetTells(s, id, Moved(s.calls[id], move));
    }
  }

  lemma {:induction false} RunTells(s: State, run: seq<Action>)
    requires Init(s)
    ensures Told(After(s, run))
  {
    if run != [] {
      var before, a := After(s, run[..|run| - 1]), run[|run| - 1];
      RunTells(s, run[..|run| - 1]);
      RunKeeps(s, run[..|run| - 1]);
      if Enabled(before, a) {
        StepTells(before, a);
      }
    }
  }

  // ---- What follows for every run.

  /** A call that has come to rest has had its handler run with what took it, if its request was made; a follower's has
      run with the timeout, or with what its leader's own handler ran with, or because the leader did not send. */
  lemma ToldWhatCame(s: State, run: seq<Action>, id: nat)
    requires Init(s) && id in After(s, run).calls && AtRest(After(s, run).calls[id])
    ensures var t := After(s, run);
            var c := t.calls[id];
            && (c.once.Made? ==> c.news.took.Some? && c.news.own == c.news.took)
            && (c.role.Follower? ==> c.news.claimed == Some(TimedOut)
                                     || (c.news.claimed == c.news.let && LetGo(t, c)))
            && (c.pc == Returned(true) ==> c.once.Made? || c.role.Follower?)
  {
    RunKeeps(s, run);
    RunTells(s, run);
  }

  predicate SameTook(c: Call, d: Call) { c.news.took.Some? ==> d.news.took == c.news.took }

  lemma FinishRemembers(s: State, id: nat, o: Outcome, x: nat)
    requires id in s.shared && x in s.calls
    ensures x in FinishShared(s, id, o).calls && SameTook(s.calls[x], FinishShared(s, id, o).calls[x])
  {
  }

  lemma StepRemembers(s: State, a: Action, id: nat)
    requires Inv(s) && Told(s) && Enabled(s, a) && id in s.calls
    ensures id in Apply(s, a).calls && SameTook(s.calls[id], Apply(s, a).calls[id])
  {
    match a {
      case Own(x, move) =>
        if x == id {
          MoveRemembers(s.calls[id], move);
        }
      case Lose => AllAreLost(s, id);
      case GiveUp(x) => GiveUpRemembers(s, x, id);
      case Finish(x) => LeaderRemembers(s, x, id);
      case Join(x) => JoinRemembers(s, x, id);
      case Begin(x, key) => BeginRemembers(s, x, key, id);
    }
  }

  lemma GiveUpRemembers(s: State, x: nat, id: nat)
    requires Enabled(s, GiveUp(x)) && id in s.calls
    ensures id in Apply(s, GiveUp(x)).calls && SameTook(s.calls[id], Apply(s, GiveUp(x)).calls[id])
  {
    FinishRemembers(s, x, NotSent, id);
  }

  lemma LeaderRemembers(s: State, x: nat, id: nat)
    requires Enabled(s, Finish(x)) && id in s.calls
    ensures id in Apply(s, Finish(x)).calls && SameTook(s.calls[id], Apply(s, Finish(x)).calls[id])
  {
    FinishRemembers(s, x, The(s.calls[x].news.took), id);
  }

  lemma JoinRemembers(s: State, x: nat, id: nat)
    requires Enabled(s, Join(x)) && id in s.calls
    ensures id in Joined(s, x).calls && SameTook(s.calls[id], Joined(s, x).calls[id])
  {
  }

  lemma BeginRemembers(s: State, x: nat, key: Option<nat>, id: nat)
    requires x !in s.calls && id in s.calls
    ensures id in Acquire(s, x, key).calls && Acquire(s, x, key).calls[id] == s.calls[id]
  {
  }

  lemma NextRemembers(s: State, run: seq<Action>, a: Action, id: nat)
    requires Init(s) && id in After(s, run).calls
    ensures id in After(s, run + [a]).calls && SameTook(After(s, run).calls[id], After(s, run + [a]).calls[id])
  {
    RunKeeps(s, run);
    RunTells(s, run);
    assert (run + [a])[..|run|] == run;
    if Enabled(After(s, run), a) {
      StepRemembers(After(s, run), a, id);
    }
  }

  /** What took a handler is never changed. */
  lemma {:induction false} TookStays(s: State, run: seq<Action>, more: seq<Action>, id: nat)
    requires Init(s) && id in After(s, run).calls && After(s, run).calls[id].news.took.Some?
    ensures id in After(s, run + more).calls
    ensures After(s, run + more).calls[id].news.took == After(s, run).calls[id].news.took
  {
    if more == [] {
      assert run + more == run;
    } else {
      var init, a := more[..|more| - 1], more[|more| - 1];
      TookStays(s, run, init, id);
      NextRemembers(s, run + init, a, id);
      assert run + more == run + init + [a];
    }
  }

  /** A response that finds its call waiting is what the call's handler is run with, whatever comes later. */
  lemma AnswerIsTold(s: State, run: seq<Action>, id: nat, msg: nat, more: seq<Action>)
    requires Init(s) && id in After(s, run).calls && After(s, run).calls[id].n.waiting
    ensures var t := After(s, run + [Own(id, Response(msg))] + more);
            && id in t.calls && t.calls[id].news.took == Some(Answer(msg))
            && (AtRest(t.calls[id]) ==> t.calls[id].news.own == Some(Answer(msg)))
  {
    var now := run + [Own(id, Response(msg))];
    RunKeeps(s, run);
    Extend(s, run, Own(id, Response(msg)));
    WaitingIsTaken(After(s, run).calls[id], Response(msg));
    TookStays(s, now, more, id);
    RunTells(s, now + more);
    if AtRest(After(s, now + more).calls[id]) {
      ToldWhatCame(s, now + more, id);
    }
  }

  /** So a call that was told of no response had none that found it waiting. */
  lemma NoAnswerWasMissed(s: State, run: seq<Action>, n: nat, id: nat, msg: nat)
    requires Init(s) && n < |run| && run[n] == Own(id, Response(msg)) && id in After(s, run[..n]).calls
    requires id in After(s, run).calls && After(s, run).calls[id].news.took in {Some(TimedOut), Some(Broken)}
    ensures !After(s, run[..n]).calls[id].n.waiting
  {
    assert run == run[..n] + [Own(id, Response(msg))] + run[n + 1..];
    if After(s, run[..n]).calls[id].n.waiting {
      AnswerIsTold(s, run[..n], id, msg, run[n + 1..]);
      assert false;
    }
  }

  // ---- Followers.

  /** A follower that has joined is listed, or has been let go. */
  ghost predicate Listing(s: State) {
    forall x :: x in s.calls && Joins(s.calls[x]) ==> ListedOrLet(s, x)
  }

  predicate ListedOrLet(s: State, x: nat)
    requires x in s.calls && s.calls[x].role.Follower?
  {
    s.calls[x].news.let.Some? || (s.calls[x].role.of in s.shared && x in s.shared[s.calls[x].role.of].subs)
  }

  /** A call that has joined had before any step of its own. */
  lemma JoinedBefore(c: Call, move: Move)
    requires CallOk(c) && CanMove(c, move) && Joins(Moved(c, move))
    ensures Joins(c) && Moved(c, move).role == c.role && Moved(c, move).news.let == c.news.let
  {
  }

  lemma MoveLists(s: State, id: nat, move: Move)
    requires Inv(s) && Listing(s) && Enabled(s, Own(id, move))
    ensures Listing(Apply(s, Own(id, move)))
  {
    var t := Apply(s, Own(id, move));
    forall x | x in t.calls && Joins(t.calls[x])
      ensures ListedOrLet(t, x)
    {
      if x == id {
        JoinedBefore(s.calls[id], move);
      }
      assert ListedOrLet(s, x);
    }
  }

  lemma JoinLists(s: State, id: nat)
    requires Listing(s) && Enabled(s, Join(id))
    ensures Listing(Joined(s, id))
  {
    var t := Joined(s, id);
    forall x | x in t.calls && Joins(t.calls[x])
      ensures ListedOrLet(t, x)
    {
      assert x != id ==> ListedOrLet(s, x);
    }
  }

  lemma FinishLists(s: State, id: nat, o: Outcome)
    requires Listing(s) && id in s.shared
    ensures Listing(FinishShared(s, id, o))
  {
    var t := FinishShared(s, id, o);
    forall x | x in t.calls && Joins(t.calls[x])
      ensures ListedOrLet(t, x)
    {
      assert Joins(s.calls[x]) && ListedOrLet(s, x);
      assert x in s.shared[id].subs ==> multiset(s.shared[id].subs)[x] > 0;
    }
  }

  lemma BeginLists(s: State, id: nat, key: Option<nat>)
    requires Inv(s) && Listing(s) && id !in s.calls
    ensures Listing(Acquire(s, id, key))
  {
    var t := Acquire(s, id, key);
    forall x | x in t.calls && Joins(t.calls[x])
      ensures ListedOrLet(t, x)
    {
      assert x != id && ListedOrLet(s, x);
    }
  }

  lemma LoseLists(s: State)
    requires Listing(s)
    ensures Listing(Apply(s, Lose))
  {
    var t := Apply(s, Lose);
    forall x | x in t.calls && Joins(t.calls[x])
      ensures ListedOrLet(t, x)
    {
      assert Joins(s.calls[x]) && ListedOrLet(s, x);
    }
  }

  /** Changing a leader changes no follower. */
  lemma LeaderLists(s: State, id: nat, d: Call)
    requires Listing(s) && id in s.calls && s.calls[id].role.Leader? && d.role.Leader?
    ensures Listing(Set(s, id, d))
  {
    var t := Set(s, id, d);
    forall x | x in t.calls && Joins(t.calls[x])
      ensures ListedOrLet(t, x)
    {
      assert x != id && ListedOrLet(s, x);
    }
  }

  lemma StepLists(s: State, a: Action)
    requires Inv(s) && Listing(s) && Enabled(s, a)
    ensures Listing(Apply(s, a))
  {
    match a {
      case Begin(id, key) => BeginLists(s, id, key);
      case Join(id) => JoinLists(s, id);
      case GiveUp(id) =>
        FinishLists(s, id, NotSent);
        var t := FinishShared(s, id, NotSent);
        LeaderLists(t, id, t.calls[id].(pc := Returned(false)));
      case Finish(id) =>
        var o := The(s.calls[id].news.took);
        FinishLists(s, id, o);
        var t := FinishShared(s, id, o);
        LeaderLists(t, id, Finishes(t, id).calls[id]);
      case Lose => LoseLists(s);
      case Own(id, move) => MoveLists(s, id, move);
    }
  }

  lemma {:induction false} RunLists(s: State, run: seq<Action>)
    requires Init(s)
    ensures Listing(After(s, run))
  {
    if run != [] {
      var before, a := After(s, run[..|run| - 1]), run[|run| - 1];
      RunLists(s, run[..|run| - 1]);
      RunKeeps(s, run[..|run| - 1]);
      if Enabled(before, a) {
        StepLists(before, a);
      }
    }
  }

  /** Once a leader has come to rest, every follower that joined it has been let go with what its own handler ran with, or
      because it did not send, and has had its handler run or is about to. */
  lemma FollowersAreLetGo(s: State, run: seq<Action>, id: nat, x: nat)
    requires Init(s) && id in After(s, run).shared && x in After(s, run).calls
    requires After(s, run).calls[x].role == Follower(id) && Joins(After(s, run).calls[x])
    ensures var t := After(s, run);
            && id in t.calls
            && (AtRest(t.calls[id]) && t.calls[id].n.finishing == 0 ==>
                  LetGo(t, t.calls[x]) && (t.calls[x].fired || t.calls[x].n.firing > 0))
  {
    RunLists(s, run);
    RunTells(s, run);
    NoFollowerIsForgotten(s, run, id);
  }
}
