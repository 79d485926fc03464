/** arpc's asynchronous calls: how often each call's handler runs, and with what, over every
    interleaving of callers, responses, timers, lost connections and failed sends,
    with the calls that share one request. Each region under a lock and each
    compare-and-swap is one step. */
module AsyncCalls {
  import opened Basics

  datatype Timer = Off | Armed | Fired

  /** What a call is to the request it asks for. */
  datatype Role = Alone | Leader | Follower(of: nat) | FellBack

  /** Whether its own request was made, or was made and taken back unsent. */
  datatype Once = NotMade | Made | Withdrawn

  /** What a handler is run with: a response, or what came instead of one: the timeout, the loss of the connection, and,
      of a follower, that its leader's request was not sent. */
  datatype Outcome = Answer(msg: nat) | TimedOut | Broken | NotSent

  datatype Pc = Joining | Stopping | Making | Sending | Unsent | Withdrawing | Returned(ok: bool)

  /** A call's handler: whether it is in the client's map, how many have taken it
      and are about to run it, how often it ran, how many are about to fire it as a
      follower's, and how many are to finish the shared request it led. */
  datatype Counts = Counts(waiting: bool, due: nat, ran: nat, firing: nat, finishing: nat)

  /** What a call hears: what took the handler of its own request from the map, what its handler then ran with, what its
      leader let it go with, and what its handler ran with as a follower's. */
  datatype News = News(took: Option<Outcome>, own: Option<Outcome>, let: Option<Outcome>, claimed: Option<Outcome>)

  /** `timer` is the request's, `subTimer` a follower's own; `raced` is that the
      latter had gone off by the time the follower stopped it to fall back. */
  datatype Call = Call(pc: Pc, role: Role, once: Once, timer: Timer, subTimer: Timer, fired: bool, raced: bool, n: Counts,
                       news: News)

  /** A request that others may join while it is in flight. */
  datatype Shared = Shared(key: nat, finished: bool, subs: seq<nat>)

  datatype State = State(calls: map<nat, Call>, inFlight: map<nat, nat>, shared: map<nat, Shared>)

  datatype Action =
    | Begin(id: nat, key: Option<nat>)
    | Join(id: nat)
    | GiveUp(id: nat)
    | Finish(id: nat)
    | Lose
    | Own(id: nat, move: Move)

  /** A step that concerns one call alone. */
  datatype Move =
    | StopTimer
    | Register(live: bool)
    | Send(ok: bool)
    | TakeBack
    | Response(msg: nat)
    | TimerFires
    | TimerRuns
    | LostTimer
    | Run
    | SubTimerFires
    | SubExpires
    | Fire

  function Fresh(pc: Pc, role: Role, subTimer: Timer): Call {
    Call(pc, role, NotMade, Off, subTimer, false, false, Counts(false, 0, 0, 0, 0), News(None, None, None, None))
  }

  predicate Init(s: State) { s == State(map[], map[], map[]) }

  // ---- The steps of one call.

  predicate CanMove(c: Call, move: Move) {
    match move
    case StopTimer => c.pc.Stopping?
    case Register(_) => c.pc.Making?
    case Send(_) => c.pc.Sending?
    case TakeBack => c.pc.Unsent?
    case Response(_) => true
    case TimerFires => c.timer.Armed?
    case TimerRuns => c.timer.Fired?
    case LostTimer => c.timer.Armed? && !c.n.waiting
    case Run => c.n.due > 0
    case SubTimerFires => c.subTimer.Armed?
    case SubExpires => c.subTimer.Fired?
    case Fire => c.n.firing > 0
  }

  function Stopped(t: Timer): Timer { if t.Armed? then Off else t }

  /** takeAsyncHandler, for one who then runs the handler. */
  function Take(c: Call, o: Outcome): Call {
    if c.n.waiting
    then c.(timer := Stopped(c.timer), n := c.n.(waiting := false, due := c.n.due + 1), news := c.news.(took := Some(o)))
    else c
  }

  /** fire and expire: the first of them runs the follower's handler. */
  function Claim(c: Call, o: Outcome): Call {
    if c.fired then c
    else c.(fired := true, subTimer := Stopped(c.subTimer), n := c.n.(ran := c.n.ran + 1),
            news := c.news.(claimed := Some(o)))
  }

  /** The outcome that is there. */
  function The(o: Option<Outcome>): Outcome { if o.Some? then o.value else NotSent }

  /** The end of a call whose own request was not made, or was taken back. */
  function Failed(c: Call): Pc { if c.role.Leader? then Withdrawing else Returned(false) }

  function Moved(c: Call, move: Move): Call
    requires CanMove(c, move)
  {
    match move
    case StopTimer =>
      c.(pc := Making, role := FellBack, raced := !c.subTimer.Armed?, subTimer := Stopped(c.subTimer))
    case Register(live) =>
      if live then c.(pc := Sending, once := Made, timer := Armed, n := c.n.(waiting := true))
      else c.(pc := Failed(c))
    case Send(ok) => c.(pc := if ok then Returned(true) else Unsent)
    case TakeBack =>
      if c.n.waiting then
        c.(pc := Failed(c), once := Withdrawn, timer := Stopped(c.timer), n := c.n.(waiting := false))
      else c.(pc := Returned(true))
    case Response(msg) => Take(c, Answer(msg))
    case TimerFires => c.(timer := Fired)
    case TimerRuns => Take(c.(timer := Off), TimedOut)
    case LostTimer => c.(timer := Off)
    case Run =>
      c.(n := c.n.(due := c.n.due - 1, ran := c.n.ran + 1,
                   finishing := if c.role.Leader? then c.n.finishing + 1 else c.n.finishing),
         news := c.news.(own := c.news.took))
    case SubTimerFires => c.(subTimer := Fired)
    case SubExpires => Claim(c.(subTimer := Off), TimedOut)
    case Fire => Claim(c.(n := c.n.(firing := c.n.firing - 1)), The(c.news.let))
  }

  // ---- The steps of several.

  predicate Enabled(s: State, a: Action) {
    match a
    case Begin(id, _) => id !in s.calls
    case Join(id) =>
      id in s.calls && s.calls[id].pc.Joining? && s.calls[id].role.Follower? && s.calls[id].role.of in s.shared
    case GiveUp(id) => id in s.calls && s.calls[id].pc.Withdrawing? && id in s.shared
    case Finish(id) => id in s.calls && s.calls[id].n.finishing > 0 && id in s.shared
    case Lose => true
    case Own(id, move) => id in s.calls && CanMove(s.calls[id], move)
  }

  function Set(s: State, id: nat, c: Call): State { s.(calls := s.calls[id := c]) }

  /** A call that asks for `key` leads a new shared request, or follows the one in flight. */
  function Acquire(s: State, id: nat, key: Option<nat>): State {
    match key
    case None => Set(s, id, Fresh(Making, Alone, Off))
    case Some(k) =>
      if k in s.inFlight then Set(s, id, Fresh(Joining, Follower(s.inFlight[k]), Armed))
      else State(s.calls[id := Fresh(Making, Leader, Off)], s.inFlight[k := id], s.shared[id := Shared(k, false, [])])
  }

  /** addSub: a follower joins, or finds the request finished. */
  function Joined(s: State, id: nat): State
    requires Enabled(s, Join(id))
  {
    var c := s.calls[id];
    var sh := s.shared[c.role.of];
    if sh.finished then Set(s, id, c.(pc := Stopping))
    else Set(s, id, c.(pc := Returned(true))).(shared := s.shared[c.role.of := sh.(subs := sh.subs + [id])])
  }

  function Fires(c: Call, k: nat, o: Outcome): Call {
    if k == 0 then c else c.(n := c.n.(firing := c.n.firing + k), news := c.news.(let := Some(o)))
  }

  function FireAll(calls: map<nat, Call>, subs: seq<nat>, o: Outcome): map<nat, Call> {
    map x | x in calls :: Fires(calls[x], multiset(subs)[x], o)
  }

  /** finishAsync and fireAsyncSubs: the followers of a shared request are let go with its outcome. */
  function FinishShared(s: State, id: nat, o: Outcome): State
    requires id in s.shared
  {
    var sh := s.shared[id];
    State(
      FireAll(s.calls, sh.subs, o),
      if sh.key in s.inFlight && s.inFlight[sh.key] == id then s.inFlight - {sh.key} else s.inFlight,
      s.shared[id := sh.(finished := true, subs := [])])
  }

  /** takePendingLocked, and the handlers that then run: a lost connection takes every call there is. */
  function Lost(c: Call): Call {
    if c.n.waiting
    then c.(n := c.n.(waiting := false, due := c.n.due + 1), news := c.news.(took := Some(Broken)))
    else c
  }

  function Apply(s: State, a: Action): State
    requires Enabled(s, a)
  {
    match a
    case Begin(id, key) => Acquire(s, id, key)
    case Join(id) => Joined(s, id)
    case GiveUp(id) => Returns(FinishShared(s, id, NotSent), id)
    case Finish(id) => Finishes(FinishShared(s, id, The(s.calls[id].news.took)), id)
    case Lose => s.(calls := map x | x in s.calls :: Lost(s.calls[x]))
    case Own(id, move) => Set(s, id, Moved(s.calls[id], move))
  }

  function Returns(s: State, id: nat): State
    requires id in s.calls
  {
    Set(s, id, s.calls[id].(pc := Returned(false)))
  }

  function Finishes(s: State, id: nat): State
    requires id in s.calls && s.calls[id].n.finishing > 0
  {
    Set(s, id, s.calls[id].(n := s.calls[id].n.(finishing := s.calls[id].n.finishing - 1)))
  }

  /** Every run: any order of any steps, with the ones that cannot be taken passed over. */
  function After(s: State, run: seq<Action>): State {
    if run == [] then s
    else
      var before := After(s, run[..|run| - 1]);
      var a := run[|run| - 1];
      if Enabled(before, a) then Apply(before, a) else before
  }

  // ---- What every step keeps.

  /** Where a call stands, and what may still be under way for it there. */
  predicate Stage(c: Call) {
    && (c.once.Made? ==> c.pc in {Sending, Unsent, Returned(true)})
    && (c.once.Withdrawn? ==> c.pc in {Withdrawing, Returned(false)})
    && (c.once.NotMade? ==> c.timer.Off? && c.pc !in {Sending, Unsent} && (c.pc == Returned(true) ==> c.role.Follower?))
    && (c.pc.Withdrawing? ==> c.role.Leader?)
    && (c.role.Follower? ==> c.once.NotMade? && c.pc in {Joining, Stopping, Returned(true)} && !c.raced)
    && (c.pc in {Joining, Stopping} ==> c.role.Follower?)
    && (c.role.Follower? && !c.fired ==> !c.subTimer.Off?) && (c.fired ==> !c.subTimer.Armed?)
    && (c.role.FellBack? ==> !c.subTimer.Armed? && (c.raced <==> c.fired || c.subTimer.Fired?))
    && (c.role in {Alone, Leader} ==> c.subTimer.Off? && !c.fired && !c.raced)
  }

  /** A handler is waiting in the map, taken, or run: one of them, for a request made; the other
      run there can be is the one a follower's timer or its leader fires. */
  predicate Counted(c: Call) {
    && One(c.n.waiting) + c.n.due + c.n.ran == One(c.once.Made?) + One(c.fired) && c.n.ran >= One(c.fired)
    && (c.n.waiting ==> !c.timer.Off?)
    && (c.n.firing > 0 ==> c.role.Follower? && c.pc == Returned(true))
    && (c.n.finishing > 0 ==> c.role.Leader?)
  }

  predicate CallOk(c: Call) { Stage(c) && Counted(c) }

  /** A shared request is in flight until it is finished, and is finished once its leader has run
      its handler, or given up, and let its followers go. */
  predicate LeadOk(sh: Shared, c: Call) {
    && c.role.Leader?
    && (sh.finished ==> sh.subs == [])
    && (!sh.finished ==> c.pc != Returned(false) && (c.n.ran > 0 ==> c.n.finishing > 0))
  }

  predicate Joins(c: Call) { c.role.Follower? && c.pc == Returned(true) }

  ghost predicate CallsOk(calls: map<nat, Call>, shared: map<nat, Shared>) {
    && (forall id :: id in calls ==> CallOk(calls[id]))
    && (forall id :: id in calls && calls[id].role.Leader? ==> id in shared)
    && (forall id :: id in calls && calls[id].role.Follower? ==> calls[id].role.of in shared)
  }

  ghost predicate LeadsOk(calls: map<nat, Call>, shared: map<nat, Shared>) {
    forall id :: id in shared ==> id in calls && LeadOk(shared[id], calls[id])
  }

  ghost predicate SubsOk(calls: map<nat, Call>, subs: seq<nat>) {
    forall i :: 0 <= i < |subs| ==> subs[i] in calls && Joins(calls[subs[i]])
  }

  ghost predicate Inv(s: State) {
    && CallsOk(s.calls, s.shared) && LeadsOk(s.calls, s.shared)
    && (forall id :: id in s.shared ==> SubsOk(s.calls, s.shared[id].subs))
    && (forall k :: k in s.inFlight ==> s.inFlight[k] in s.shared)
  }

  lemma SubsStay(before: map<nat, Call>, after: map<nat, Call>, subs: seq<nat>)
    requires SubsOk(before, subs) && forall x :: x in before && Joins(before[x]) ==> x in after && Joins(after[x])
    ensures SubsOk(after, subs)
  {
  }

  /** Changing one call, or starting it. */
  lemma SetKeeps(s: State, id: nat, c: Call)
    requires Inv(s) && CallOk(c) && (c.role.Leader? <==> id in s.shared) && (c.role.Follower? ==> c.role.of in s.shared)
    requires id in s.shared ==> LeadOk(s.shared[id], c)
    requires id in s.calls && Joins(s.calls[id]) ==> Joins(c)
    ensures Inv(Set(s, id, c))
  {
    var t := Set(s, id, c);
    forall x | x in s.shared
      ensures SubsOk(t.calls, s.shared[x].subs)
    {
      SubsStay(s.calls, t.calls, s.shared[x].subs);
    }
  }

  lemma MoveKeeps(c: Call, move: Move)
    requires CallOk(c) && CanMove(c, move)
    ensures CallOk(Moved(c, move))
    ensures forall sh: Shared :: LeadOk(sh, c) ==> LeadOk(sh, Moved(c, move))
    ensures Joins(c) ==> Joins(Moved(c, move))
    ensures Moved(c, move).role == c.role || Moved(c, move).role.FellBack?
    ensures c.role.Leader? ==> Moved(c, move).role.Leader?
  {
  }

  lemma OwnKeeps(s: State, id: nat, move: Move)
    requires Inv(s) && Enabled(s, Own(id, move))
    ensures Inv(Apply(s, Own(id, move)))
  {
    MoveKeeps(s.calls[id], move);
    SetKeeps(s, id, Moved(s.calls[id], move));
  }

  lemma BeginKeeps(s: State, id: nat, key: Option<nat>)
    requires Inv(s) && id !in s.calls
    ensures Inv(Acquire(s, id, key))
  {
    if key.Some? && key.value !in s.inFlight {
      var t := Acquire(s, id, key);
      forall x | x in t.shared
        ensures SubsOk(t.calls, t.shared[x].subs)
      {
        if x != id {
          SubsStay(s.calls, t.calls, s.shared[x].subs);
        }
      }
    } else {
      SetKeeps(s, id, Acquire(s, id, key).calls[id]);
    }
  }

  /** Changing what is shared of one request. */
  lemma ShareKeeps(s: State, id: nat, sh: Shared)
    requires Inv(s) && id in s.shared && LeadOk(sh, s.calls[id]) && SubsOk(s.calls, sh.subs)
    ensures Inv(s.(shared := s.shared[id := sh]))
  {
  }

  lemma JoinKeeps(s: State, id: nat)
    requires Inv(s) && Enabled(s, Join(id))
    ensures Inv(Joined(s, id))
  {
    var c := s.calls[id];
    var sh := s.shared[c.role.of];
    if sh.finished {
      SetKeeps(s, id, c.(pc := Stopping));
    } else {
      SetKeeps(s, id, c.(pc := Returned(true)));
      var t := Set(s, id, c.(pc := Returned(true)));
      assert LeadOk(sh, t.calls[c.role.of]) && SubsOk(t.calls, sh.subs);
      ShareKeeps(t, c.role.of, sh.(subs := sh.subs + [id]));
    }
  }

  lemma FiresKeeps(c: Call, k: nat, o: Outcome)
    requires CallOk(c) && (k > 0 ==> Joins(c))
    ensures CallOk(Fires(c, k, o))
  {
  }

  lemma FiringCalls(calls: map<nat, Call>, shared: map<nat, Shared>, subs: seq<nat>, o: Outcome)
    requires CallsOk(calls, shared) && SubsOk(calls, subs)
    ensures CallsOk(FireAll(calls, subs, o), shared)
  {
    forall x | x in calls
      ensures CallOk(Fires(calls[x], multiset(subs)[x], o))
    {
      assert x in multiset(subs) ==> x in subs;
      FiresKeeps(calls[x], multiset(subs)[x], o);
    }
  }

  lemma FiringLeads(calls: map<nat, Call>, shared: map<nat, Shared>, subs: seq<nat>, o: Outcome)
    requires LeadsOk(calls, shared)
    ensures LeadsOk(FireAll(calls, subs, o), shared)
  {
  }

  /** Firing followers that have joined. */
  lemma FiringKeeps(s: State, subs: seq<nat>, o: Outcome)
    requires Inv(s) && SubsOk(s.calls, subs)
    ensures Inv(s.(calls := FireAll(s.calls, subs, o)))
  {
    FiringCalls(s.calls, s.shared, subs, o);
    FiringLeads(s.calls, s.shared, subs, o);
    forall x | x in s.shared
      ensures SubsOk(FireAll(s.calls, subs, o), s.shared[x].subs)
    {
      FiringSubs(s.calls, subs, o, s.shared[x].subs);
    }
  }

  lemma FiringSubs(calls: map<nat, Call>, subs: seq<nat>, o: Outcome, listed: seq<nat>)
    requires SubsOk(calls, listed)
    ensures SubsOk(FireAll(calls, subs, o), listed)
  {
  }

  lemma FinishKeeps(s: State, id: nat, o: Outcome)
    requires Inv(s) && id in s.shared
    ensures Inv(FinishShared(s, id, o))
    ensures id in FinishShared(s, id, o).calls
  {
    var sh := s.shared[id];
    FiringKeeps(s, sh.subs, o);
    var t := s.(calls := FinishShared(s, id, o).calls);
    ShareKeeps(t, id, sh.(finished := true, subs := []));
  }

  lemma LostIsOk(c: Call)
    requires CallOk(c)
    ensures CallOk(Lost(c)) && Lost(c).role == c.role && Lost(c).pc == c.pc && Lost(c).n.finishing == c.n.finishing
    ensures Lost(c).n.ran == c.n.ran
  {
  }

  lemma LoseKeeps(s: State)
    requires Inv(s)
    ensures Inv(Apply(s, Lose))
  {
    var t := Apply(s, Lose);
    forall x | x in s.calls
      ensures CallOk(t.calls[x]) && t.calls[x].role == s.calls[x].role
      ensures x in s.shared ==> LeadOk(s.shared[x], t.calls[x])
      ensures Joins(s.calls[x]) ==> Joins(t.calls[x])
    {
      LostIsOk(s.calls[x]);
      assert x in s.shared ==> LeadOk(s.shared[x], s.calls[x]);
    }
    forall x | x in s.shared
      ensures SubsOk(t.calls, s.shared[x].subs)
    {
      SubsStay(s.calls, t.calls, s.shared[x].subs);
    }
  }

  lemma GiveUpKeeps(s: State, id: nat)
    requires Inv(s) && Enabled(s, GiveUp(id))
    ensures Inv(Apply(s, GiveUp(id)))
  {
    FinishKeeps(s, id, NotSent);
    var t := FinishShared(s, id, NotSent);
    SetKeeps(t, id, t.calls[id].(pc := Returned(false)));
  }

  lemma LeaderFinishKeeps(s: State, id: nat)
    requires Inv(s) && Enabled(s, Finish(id))
    ensures Inv(Apply(s, Finish(id)))
  {
    var o := The(s.calls[id].news.took);
    FinishKeeps(s, id, o);
    var t := FinishShared(s, id, o);
    SetKeeps(t, id, Finishes(t, id).calls[id]);
  }

  lemma StepKeeps(s: State, a: Action)
    requires Inv(s) && Enabled(s, a)
    ensures Inv(Apply(s, a))
  {
    match a {
      case Begin(id, key) => BeginKeeps(s, id, key);
      case Join(id) => JoinKeeps(s, id);
      case GiveUp(id) => GiveUpKeeps(s, id);
      case Finish(id) => LeaderFinishKeeps(s, id);
      case Lose => LoseKeeps(s);
      case Own(id, move) => OwnKeeps(s, id, move);
    }
  }

  lemma {:induction false} RunKeeps(s: State, run: seq<Action>)
    requires Init(s)
    ensures Inv(After(s, run))
  {
    if run != [] {
      RunKeeps(s, run[..|run| - 1]);
      var before, a := After(s, run[..|run| - 1]), run[|run| - 1];
      if Enabled(before, a) {
        StepKeeps(before, a);
      }
    }
  }

  // ---- What follows for every run.

  /** CallAsync has returned, and nothing is left that could run its handler: no timer, no response
      or loss that has taken it, no leader about to fire it. */
  predicate AtRest(c: Call) {
    c.pc.Returned? && c.timer.Off? && c.subTimer.Off? && c.n.due == 0 && c.n.firing == 0
  }

  /** What CallAsync promises: a handler that ran once, or never if it returned an error. */
  predicate Promised(c: Call)
    requires c.pc.Returned?
  {
    c.n.ran == if c.pc.ok then 1 else 0
  }

  /** The promise is kept exactly when the call did not fall back after its own timer had gone off. */
  lemma HandlerRunsAsPromised(s: State, run: seq<Action>, id: nat)
    requires Init(s) && id in After(s, run).calls && AtRest(After(s, run).calls[id])
    ensures var c := After(s, run).calls[id];
            && (Promised(c) <==> !c.raced)
            && c.n.ran == One(c.pc.ok) + One(c.raced)
            && (c.raced ==> c.role.FellBack?)
  {
    RunKeeps(s, run);
  }

  /** At no point has a handler run more often than that. */
  lemma RunsAreBounded(s: State, run: seq<Action>, id: nat)
    requires Init(s) && id in After(s, run).calls
    ensures var c := After(s, run).calls[id]; c.n.ran + c.n.due <= 1 + One(c.raced)
    ensures var c := After(s, run).calls[id]; c.pc == Returned(false) ==> c.n.ran + c.n.due <= One(c.raced)
  {
    RunKeeps(s, run);
  }

  /** A call that waits for its response always has a timer to end the wait, and one
      that waits on a leader's has its own. */
  lemma WaitEnds(s: State, run: seq<Action>, id: nat)
    requires Init(s) && id in After(s, run).calls
    ensures var c := After(s, run).calls[id];
            && (c.n.waiting ==> !c.timer.Off?) && (Joins(c) && c.n.ran == 0 ==> !c.subTimer.Off?)
  {
    RunKeeps(s, run);
  }

  /** A leader that has come to rest has let all its followers go. */
  lemma NoFollowerIsForgotten(s: State, run: seq<Action>, id: nat)
    requires Init(s) && id in After(s, run).shared
    ensures var t := After(s, run);
            && id in t.calls
            && (AtRest(t.calls[id]) && t.calls[id].n.finishing == 0 ==>
                  t.shared[id].finished && t.shared[id].subs == [])
  {
    RunKeeps(s, run);
  }

  // ---- The run that breaks the promise.

  lemma Extend(s: State, run: seq<Action>, a: Action)
    requires Enabled(After(s, run), a)
    ensures After(s, run + [a]) == Apply(After(s, run), a)
  {
    assert (run + [a])[..|run|] == run;
  }

  /** Call 1 follows call 0, which is answered and finishes before call 1 has joined. */
  lemma LeaderFinishesFirst(s: State) returns (run: seq<Action>)
    requires Init(s)
    ensures 1 in After(s, run).calls && After(s, run).calls[1] == Fresh(Joining, Follower(0), Armed)
    ensures 0 in After(s, run).shared && After(s, run).shared[0].finished
  {
    run := [];
    Extend(s, run, Begin(0, Some(7)));
    run := run + [Begin(0, Some(7))];
    Extend(s, run, Own(0, Register(true)));
    run := run + [Own(0, Register(true))];
    Extend(s, run, Begin(1, Some(7)));
    run := run + [Begin(1, Some(7))];
    assert After(s, run).calls[1] == Fresh(Joining, Follower(0), Armed);
    Extend(s, run, Own(0, Response(5)));
    run := run + [Own(0, Response(5))];
    Extend(s, run, Own(0, Run));
    run := run + [Own(0, Run)];
    assert After(s, run).shared[0] == Shared(7, false, []) && After(s, run).calls[0].n.finishing == 1;
    Extend(s, run, Finish(0));
    run := run + [Finish(0)];
  }

  /** Then call 1's own timer goes off and runs its handler, and only then does it find that it cannot join. */
  lemma FollowerIsOvertaken(s: State) returns (run: seq<Action>)
    requires Init(s)
    ensures 1 in After(s, run).calls
    ensures After(s, run).calls[1] ==
            Call(Making, FellBack, NotMade, Off, Off, true, true, Counts(false, 0, 1, 0, 0),
                 News(None, None, None, Some(TimedOut)))
  {
    run := LeaderFinishesFirst(s);
    Extend(s, run, Own(1, SubTimerFires));
    run := run + [Own(1, SubTimerFires)];
    Extend(s, run, Own(1, SubExpires));
    run := run + [Own(1, SubExpires)];
    assert After(s, run).calls[1].n.ran == 1;
    Extend(s, run, Join(1));
    run := run + [Join(1)];
    Extend(s, run, Own(1, StopTimer));
    run := run + [Own(1, StopTimer)];
  }

  /** So a call that returned nil runs its handler twice, and one that returned an error runs it. */
  lemma PromiseCanBreak(s: State) returns (twice: seq<Action>, afterError: seq<Action>)
    requires Init(s)
    ensures 1 in After(s, twice).calls && AtRest(After(s, twice).calls[1])
    ensures After(s, twice).calls[1].pc == Returned(true) && After(s, twice).calls[1].n.ran == 2
    ensures 1 in After(s, afterError).calls && AtRest(After(s, afterError).calls[1])
    ensures After(s, afterError).calls[1].pc == Returned(false) && After(s, afterError).calls[1].n.ran == 1
  {
    var run := FollowerIsOvertaken(s);
    Extend(s, run, Own(1, Register(false)));
    afterError := run + [Own(1, Register(false))];
    Extend(s, run, Own(1, Register(true)));
    twice := run + [Own(1, Register(true))];
    Extend(s, twice, Own(1, Send(true)));
    twice := twice + [Own(1, Send(true))];
    Extend(s, twice, Own(1, Response(6)));
    twice := twice + [Own(1, Response(6))];
    Extend(s, twice, Own(1, Run));
    twice := twice + [Own(1, Run)];
  }
}
