/** arpc's blocking calls: the one-message channels they wait on, which are pooled
    and shared with the responses and the loss of the connection. */
module Sessions {
  import opened Basics

  /** A channel of one message, named by the call it answers. */
  datatype Chan = Chan(open: bool, held: Option<nat>)

  datatype Pc = Holding | Waiting | Ending | Draining | Done

  /** A call, named by its sequence number; `got` is the response it returns with. */
  datatype Caller = Caller(ch: nat, pc: Pc, got: Option<nat>)

  /** `missed` are the responses that found no call waiting for them, which the session-miss handler gets. */
  datatype State = State(chans: map<nat, Chan>, pool: set<nat>, sessions: map<nat, nat>, callers: map<nat, Caller>,
                         missed: multiset<nat>)

  datatype Action =
    | Get(call: nat, ch: nat)
    | Register(call: nat, live: bool)
    | Receive(call: nat)
    | Leave(call: nat)
    | Forget(call: nat)
    | Drain(call: nat)
    | Response(call: nat)
    | Lose

  predicate Init(s: State) { s == State(map[], {}, map[], map[], multiset{}) }

  predicate At(s: State, call: nat, pc: Pc) {
    call in s.callers && s.callers[call].pc == pc && s.callers[call].ch in s.chans
  }

  /** A response is delivered under the lock, so a channel it cannot go into would hold the lock. */
  predicate Deliverable(s: State, call: nat) {
    call in s.sessions ==> s.sessions[call] in s.chans && s.chans[s.sessions[call]] == Chan(true, None)
  }

  predicate Enabled(s: State, a: Action) {
    match a
    // A channel comes from the pool, or is made.
    case Get(call, ch) => call !in s.callers && (ch in s.pool || ch !in s.chans)
    case Register(call, _) => At(s, call, Holding)
    case Receive(call) => At(s, call, Waiting) && s.chans[s.callers[call].ch] != Chan(true, None)
    case Leave(call) => At(s, call, Waiting)
    case Forget(call) => At(s, call, Ending)
    case Drain(call) => At(s, call, Draining)
    case Response(call) => Deliverable(s, call)
    case Lose => true
  }

  function SetCaller(s: State, call: nat, c: Caller): State { s.(callers := s.callers[call := c]) }

  function Apply(s: State, a: Action): State
    requires Enabled(s, a)
  {
    match a
    case Get(call, ch) =>
      SetCaller(s, call, Caller(ch, Holding, None)).(
        pool := s.pool - {ch}, chans := if ch in s.chans then s.chans else s.chans[ch := Chan(true, None)])
    case Register(call, live) =>
      var c := s.callers[call];
      if live then SetCaller(s, call, c.(pc := Waiting)).(sessions := s.sessions[call := c.ch])
      else SetCaller(s, call, c.(pc := Done)).(pool := s.pool + {c.ch})
    case Receive(call) =>
      var c := s.callers[call];
      var ch := s.chans[c.ch];
      SetCaller(s, call, c.(pc := Ending, got := ch.held)).(chans := s.chans[c.ch := ch.(held := None)])
    case Leave(call) => SetCaller(s, call, s.callers[call].(pc := Ending))
    case Forget(call) => SetCaller(s, call, s.callers[call].(pc := Draining)).(sessions := s.sessions - {call})
    case Drain(call) =>
      var c := s.callers[call];
      var ch := s.chans[c.ch];
      var t := SetCaller(s, call, c.(pc := Done));
      if ch.held.Some?
      then t.(chans := s.chans[c.ch := ch.(held := None)], pool := s.pool + {c.ch},
              missed := s.missed + multiset{ch.held.value})
      else if !ch.open then t
      else t.(pool := s.pool + {c.ch})
    case Response(call) =>
      if call !in s.sessions then s.(missed := s.missed + multiset{call})
      else s.(sessions := s.sessions - {call},
              chans := s.chans[s.sessions[call] := s.chans[s.sessions[call]].(held := Some(call))])
    case Lose =>
      s.(sessions := map[],
         chans := map ch | ch in s.chans ::
           if ch in s.sessions.Values then s.chans[ch].(open := false) else s.chans[ch])
  }

  function After(s: State, run: seq<Action>): State {
    if run == [] then s
    else
      var before := After(s, run[..|run| - 1]);
      var a := run[|run| - 1];
      if Enabled(before, a) then Apply(before, a) else before
  }

  // ---- What every step keeps.

  /** A pooled channel is open and empty. */
  ghost predicate PoolOk(s: State) { forall ch :: ch in s.pool ==> ch in s.chans && s.chans[ch] == Chan(true, None) }

  /** A call under way has a channel to itself, in which there is at most its own response. */
  ghost predicate OwnsOk(s: State, call: nat)
    requires call in s.callers
  {
    var c := s.callers[call];
    && (c.got.Some? ==> c.got.value == call && !c.pc.Holding? && !c.pc.Waiting?)
    && (!c.pc.Done? ==>
          && c.ch in s.chans && c.ch !in s.pool
          && (c.pc.Holding? ==> s.chans[c.ch] == Chan(true, None))
          && (s.chans[c.ch].held.Some? ==> s.chans[c.ch] == Chan(true, Some(call)) && call !in s.sessions)
          && (c.pc.Draining? ==> call !in s.sessions)
          && (c.pc.Waiting? ==> call in s.sessions || s.chans[c.ch] != Chan(true, None)))
  }

  ghost predicate Apart(s: State) {
    forall a, b :: a in s.callers && b in s.callers && a != b && !s.callers[a].pc.Done? && !s.callers[b].pc.Done? ==>
      s.callers[a].ch != s.callers[b].ch
  }

  /** A registered call's channel is its own, open and empty. */
  ghost predicate SessionsOk(s: State) {
    forall call :: call in s.sessions ==>
      && call in s.callers && s.callers[call].pc in {Waiting, Ending} && s.callers[call].ch == s.sessions[call]
      && Deliverable(s, call)
  }

  ghost predicate Inv(s: State) {
    PoolOk(s) && (forall call :: call in s.callers ==> OwnsOk(s, call)) && Apart(s) && SessionsOk(s)
  }

  lemma WaitKeeps(s: State, a: Action)
    requires Inv(s) && Enabled(s, a) && (a.Receive? || a.Leave? || a.Forget?)
    ensures Inv(Apply(s, a))
  {
    assert OwnsOk(s, a.call);
  }

  lemma DrainKeeps(s: State, call: nat)
    requires Inv(s) && Enabled(s, Drain(call))
    ensures Inv(Apply(s, Drain(call)))
  {
    assert OwnsOk(s, call);
    var t := Apply(s, Drain(call));
    forall x | x in t.callers
      ensures OwnsOk(t, x)
    {
      assert OwnsOk(s, x);
      DrainLeaves(s, call, x);
    }
    DrainFrees(s, call);
  }

  lemma DrainLeaves(s: State, call: nat, x: nat)
    requires Inv(s) && Enabled(s, Drain(call)) && x in s.callers && OwnsOk(s, x)
    ensures OwnsOk(Apply(s, Drain(call)), x)
  {
  }

  lemma DrainFrees(s: State, call: nat)
    requires Inv(s) && Enabled(s, Drain(call)) && OwnsOk(s, call)
    ensures var t := Apply(s, Drain(call)); PoolOk(t) && Apart(t) && SessionsOk(t)
  {
  }

  lemma GetKeeps(s: State, call: nat, ch: nat)
    requires Inv(s) && Enabled(s, Get(call, ch))
    ensures Inv(Apply(s, Get(call, ch)))
  {
  }

  lemma RegisterKeeps(s: State, call: nat, live: bool)
    requires Inv(s) && Enabled(s, Register(call, live))
    ensures Inv(Apply(s, Register(call, live)))
  {
    assert OwnsOk(s, call);
  }

  lemma ConnectionKeeps(s: State, a: Action)
    requires Inv(s) && Enabled(s, a) && (a.Response? || a.Lose?)
    ensures Inv(Apply(s, a))
  {
  }

  lemma {:induction false} RunKeeps(s: State, run: seq<Action>)
    requires Init(s)
    ensures Inv(After(s, run))
  {
    if run != [] {
      RunKeeps(s, run[..|run| - 1]);
      var before, a := After(s, run[..|run| - 1]), run[|run| - 1];
      if Enabled(before, a) {
        match a {
          case Get(call, ch) => GetKeeps(before, call, ch);
          case Register(call, live) => RegisterKeeps(before, call, live);
          case Drain(call) => DrainKeeps(before, call);
          case Response(_) => ConnectionKeeps(before, a);
          case Lose => ConnectionKeeps(before, a);
          case _ => WaitKeeps(before, a);
        }
      }
    }
  }

  /** In every run a response can be delivered at once, and a pooled channel is open, empty and
      nobody's. */
  lemma DeliveryNeverBlocks(s: State, run: seq<Action>, call: nat, ch: nat)
    requires Init(s)
    ensures var t := After(s, run);
            && Enabled(t, Response(call))
            && (ch in t.pool ==> ch in t.chans && t.chans[ch] == Chan(true, None) && ch !in t.sessions.Values)
            && (ch in t.pool && call in t.callers && !t.callers[call].pc.Done? ==> t.callers[call].ch != ch)
  {
    RunKeeps(s, run);
  }

  /** A call never returns with another call's response, and one still waiting is registered for its
      own, or has something to wake it. */
  lemma ResponsesAreNotMixed(s: State, run: seq<Action>, call: nat)
    requires Init(s) && call in After(s, run).callers
    ensures var t := After(s, run);
            && (t.callers[call].got.Some? ==> t.callers[call].got.value == call)
            && (t.callers[call].pc.Waiting? ==> call in t.sessions || Enabled(t, Receive(call)))
  {
    RunKeeps(s, run);
  }

  // ---- No response is lost.

  /** The response to a call is in its channel. */
  predicate HeldFor(s: State, call: nat) {
    && call in s.callers && !s.callers[call].pc.Done? && s.callers[call].ch in s.chans
    && s.chans[s.callers[call].ch].held == Some(call)
  }

  /** How many responses to a call are in its channel, returned with, or missed. */
  function Kept(s: State, call: nat): nat {
    One(HeldFor(s, call)) + One(call in s.callers && s.callers[call].got == Some(call)) + s.missed[call]
  }

  /** How many came in a run. */
  function Came(run: seq<Action>, call: nat): nat {
    if run == [] then 0 else Came(run[..|run| - 1], call) + One(run[|run| - 1] == Response(call))
  }

  lemma WaitLosesNone(s: State, a: Action, call: nat)
    requires Inv(s) && Enabled(s, a) && (a.Receive? || a.Leave? || a.Forget?)
    ensures Kept(Apply(s, a), call) == Kept(s, call)
  {
    assert OwnsOk(s, a.call) && (call in s.callers ==> OwnsOk(s, call));
  }

  lemma DrainLosesNone(s: State, x: nat, call: nat)
    requires Inv(s) && Enabled(s, Drain(x))
    ensures Kept(Apply(s, Drain(x)), call) == Kept(s, call)
  {
    assert OwnsOk(s, x) && (call in s.callers ==> OwnsOk(s, call));
  }

  lemma OpenLosesNone(s: State, a: Action, call: nat)
    requires Inv(s) && Enabled(s, a) && (a.Get? || a.Register?)
    ensures Kept(Apply(s, a), call) == Kept(s, call)
  {
    assert call in s.callers ==> OwnsOk(s, call);
  }

  lemma ResponseIsKept(s: State, x: nat, call: nat)
    requires Inv(s) && Enabled(s, Response(x))
    ensures Kept(Apply(s, Response(x)), call) == Kept(s, call) + One(x == call)
  {
    assert call in s.callers ==> OwnsOk(s, call);
    assert x in s.sessions ==> OwnsOk(s, x);
  }

  lemma LossLosesNone(s: State, call: nat)
    requires Inv(s)
    ensures Kept(Apply(s, Lose), call) == Kept(s, call)
  {
  }

  /** In every run each response that came is in the channel of the call it answers, returned with by it, or was handed to
      the session-miss handler: exactly one of them, once. */
  lemma {:induction false} NoResponseIsLost(s: State, run: seq<Action>, call: nat)
    requires Init(s)
    ensures Kept(After(s, run), call) == Came(run, call)
  {
    if run != [] {
      var before, a := After(s, run[..|run| - 1]), run[|run| - 1];
      NoResponseIsLost(s, run[..|run| - 1], call);
      RunKeeps(s, run[..|run| - 1]);
      if Enabled(before, a) {
        match a {
          case Response(x) => ResponseIsKept(before, x, call);
          case Lose => LossLosesNone(before, call);
          case Drain(x) => DrainLosesNone(before, x, call);
          case Get(_, _) => OpenLosesNone(before, a, call);
          case Register(_, _) => OpenLosesNone(before, a, call);
          case _ => WaitLosesNone(before, a, call);
        }
      }
    }
  }

  /** A call that receives with a response in its channel returns with that response, and a response that finds its call
      registered is in its channel. */
  lemma ResponseIsReturned(s: State, call: nat)
    requires Inv(s)
    ensures call in s.sessions ==> Enabled(s, Response(call)) && HeldFor(Apply(s, Response(call)), call)
    ensures HeldFor(s, call) && s.callers[call].pc.Waiting? ==>
              Enabled(s, Receive(call)) && Apply(s, Receive(call)).callers[call].got == Some(call)
  {
    assert call in s.sessions ==> OwnsOk(s, call);
  }

  /** The loss of the connection wakes every call registered, to return without a response, and no other. */
  lemma LossWakesAll(s: State, call: nat)
    requires Inv(s) && call in s.callers && s.callers[call].pc.Waiting?
    ensures var t := Apply(s, Lose);
            && t.sessions == map[] && Enabled(t, Receive(call))
            && (call in s.sessions ==> Apply(t, Receive(call)).callers[call].got.None?)
            && (call !in s.sessions ==> t.chans[s.callers[call].ch].held == s.chans[s.callers[call].ch].held)
  {
    assert OwnsOk(s, call);
  }
}
