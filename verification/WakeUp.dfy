/** The event loop's command queue and wake-up: any number of requesters, one
    loop, and the last drain as the engine closes. Each region under the queue's
    lock and each atomic operation is one step. */
module WakeUp {
  type Command = nat

  /** Where a requester stands: what it wakes the loop for is there, or it is the one to post the wake-up. */
  datatype Requester = Queued | Due

  /** The loop between two steps. `Settle` stages carry the number of the round. */
  datatype Loop =
    | Waiting
    | Woken(reported: bool)
    | Events(reported: bool)
    | Draining
    | Running
    | Ready
    | Clear(i: nat)
    | Look(i: nat)
    | Again(i: nat)
    | Drain(i: nat)
    | Run(i: nat)
    | Rounds(i: nat)
    | Claim
    | Posting
    | LastDrain
    | LastRun
    | Exited
    | CloseDrain
    | CloseRun
    | Closed

  const MAX_SETTLE_ROUNDS := 8

  datatype Queue = Queue(commands: seq<Command>, closed: bool, batch: seq<Command>, redeliver: nat)

  /** `accepted` are the commands queued, `ran` those run, `served` how many of the rounds they left have been run. */
  datatype State = State(
    q: Queue,
    wakePending: bool,
    posted: bool,
    stopping: bool,
    requesters: map<nat, Requester>,
    loop: Loop,
    accepted: seq<Command>,
    ran: seq<Command>,
    served: nat)

  /** `Notify` wakes the loop without a command, as the release of the budget does, and `Stop` has it end. `Step` is the
      loop's own; `reported` says its wait reported the wake-up, `owed` how many rounds a command left it to run. */
  datatype Action =
    | Request(id: nat, c: Command)
    | Notify(id: nat)
    | Stop(id: nat)
    | Swap(id: nat)
    | Post(id: nat)
    | Step(reported: bool, owed: nat)
    | Close

  predicate Init(s: State) {
    && s.q == Queue([], false, [], 0) && !s.wakePending && !s.posted && !s.stopping
    && s.requesters == map[] && (s.loop.Waiting? || s.loop.Exited?) && s.accepted == [] && s.ran == [] && s.served == 0
  }

  predicate Enabled(s: State, a: Action) {
    match a
    case Request(id, _) => id !in s.requesters
    case Notify(id) => id !in s.requesters
    case Stop(id) => id !in s.requesters
    case Swap(id) => id in s.requesters && s.requesters[id].Queued?
    case Post(id) => id in s.requesters && s.requesters[id].Due?
    // A wait returns for other events too, but the wake-up's only once it is posted.
    case Step(reported, _) => !s.loop.Exited? && !s.loop.Closed? && (s.loop.Waiting? && reported ==> s.posted)
    case Close => s.loop.Exited?
  }

  function Apply(s: State, a: Action): State
    requires Enabled(s, a)
  {
    match a
    case Request(id, c) =>
      if s.q.closed then s
      else s.(q := s.q.(commands := s.q.commands + [c]), accepted := s.accepted + [c],
              requesters := s.requesters[id := Queued])
    case Notify(id) => s.(requesters := s.requesters[id := Queued])
    case Stop(id) => s.(stopping := true, requesters := s.requesters[id := Queued])
    case Swap(id) =>
      if s.wakePending then s.(requesters := s.requesters - {id})
      else s.(wakePending := true, requesters := s.requesters[id := Due])
    case Post(id) => s.(posted := true, requesters := s.requesters - {id})
    case Close => s.(q := s.q.(closed := true), loop := CloseDrain)
    case Step(reported, owed) => LoopStep(s, reported, owed)
  }

  /** drainCommands takes the whole queue, and runs it below. */
  function Take(s: State, next: Loop): State {
    s.(q := s.q.(commands := [], batch := s.q.commands), loop := next)
  }

  function RunOne(s: State, owed: nat, next: Loop): State {
    if s.q.batch == [] then s.(loop := next)
    else s.(ran := s.ran + [s.q.batch[0]], q := s.q.(batch := s.q.batch[1..], redeliver := s.q.redeliver + owed))
  }

  /** runReady, as far as the rounds that commands left go. */
  function RunReady(s: State, next: Loop): State {
    s.(served := s.served + s.q.redeliver, q := s.q.(redeliver := 0), loop := next)
  }

  function LoopStep(s: State, reported: bool, owed: nat): (t: State)
    ensures t.requesters == s.requesters && t.accepted == s.accepted && t.stopping == s.stopping
  {
    if Settling(s) then SettleStep(s, owed)
    else if Ending(s) then EndStep(s, owed)
    else PassStep(s, reported, owed)
  }

  /** A pass of the loop, from its wait to the rounds it found ready. */
  function PassStep(s: State, reported: bool, owed: nat): (t: State)
    requires !Settling(s) && !Ending(s)
    ensures t.requesters == s.requesters && t.accepted == s.accepted && t.stopping == s.stopping
  {
    match s.loop
    case Waiting => s.(loop := Woken(reported))
    case Woken(wake) => s.(wakePending := true, loop := Events(wake))
    case Events(wake) => if wake then s.(posted := false, loop := Draining) else s.(loop := Ready)
    case Draining => Take(s, Running)
    case Running => RunOne(s, owed, Ready)
    case Ready => RunReady(s, Clear(0))
  }

  /** settle. */
  function SettleStep(s: State, owed: nat): (t: State)
    requires Settling(s)
    ensures t.requesters == s.requesters && t.accepted == s.accepted && t.stopping == s.stopping
  {
    match s.loop
    case Clear(i) => s.(wakePending := false, loop := Look(i))
    case Look(i) =>
      if s.q.commands == [] && s.q.redeliver == 0 then s.(loop := Resume(s))
      else if i == MAX_SETTLE_ROUNDS then s.(loop := Claim)
      else s.(loop := Again(i))
    case Again(i) => s.(wakePending := true, loop := Drain(i))
    case Drain(i) => Take(s, Run(i))
    case Run(i) => RunOne(s, owed, Rounds(i))
    case Rounds(i) => RunReady(s, Clear(i + 1))
    case Claim => if s.wakePending then s.(loop := Resume(s)) else s.(wakePending := true, loop := Posting)
    case Posting => s.(posted := true, loop := Resume(s))
  }

  /** The last drains, of the loop and of the engine's close. */
  function EndStep(s: State, owed: nat): (t: State)
    requires Ending(s)
    ensures t.requesters == s.requesters && t.accepted == s.accepted && t.stopping == s.stopping
  {
    match s.loop
    case LastDrain => Take(s, LastRun)
    case LastRun => RunOne(s, owed, Exited)
    case CloseDrain => Take(s, CloseRun)
    case CloseRun => RunOne(s, owed, Closed)
    case Exited => s
    case Closed => s
  }

  predicate Settling(s: State) {
    s.loop.Clear? || s.loop.Look? || s.loop.Again? || s.loop.Drain? || s.loop.Run? || s.loop.Rounds? || s.loop.Claim?
    || s.loop.Posting?
  }

  predicate Ending(s: State) {
    s.loop.LastDrain? || s.loop.LastRun? || s.loop.Exited? || s.loop.CloseDrain? || s.loop.CloseRun? || s.loop.Closed?
  }

  function Resume(s: State): Loop { if s.stopping then LastDrain else Waiting }

  /** Every run: any order of any steps, with the ones that cannot be taken passed over. */
  function After(s: State, run: seq<Action>): State {
    if run == [] then s
    else
      var before := After(s, run[..|run| - 1]);
      var a := run[|run| - 1];
      if Enabled(before, a) then Apply(before, a) else before
  }

  // ---- What every step keeps.

  predicate SomeQueued(r: map<nat, Requester>) { exists id :: id in r && r[id].Queued? }

  predicate SomeDue(r: map<nat, Requester>) { exists id :: id in r && r[id].Due? }

  /** Between the clearing of the flag and the return of the next wait, a flag
      that is set again stands for a wake-up posted or about to be. */
  predicate Announced(s: State) {
    (s.loop.Waiting? || s.loop.Look? || s.loop.Claim?) && s.wakePending ==> s.posted || SomeDue(s.requesters)
  }

  /** What the loop waits with is announced. */
  predicate NothingSleeps(s: State) {
    && (s.loop.Waiting? && s.q.commands != [] ==> s.posted || SomeQueued(s.requesters) || SomeDue(s.requesters))
    && (s.loop.Waiting? && s.q.redeliver > 0 ==> s.posted || SomeDue(s.requesters))
    && (s.loop.Waiting? && s.stopping ==> s.posted || SomeQueued(s.requesters) || SomeDue(s.requesters))
  }

  /** Accepted commands run once each, in the order they were queued. */
  predicate InOrder(s: State) {
    && s.ran + s.q.batch + s.q.commands == s.accepted
    && (s.q.batch != [] ==> s.loop.Running? || s.loop.Run? || s.loop.LastRun? || s.loop.CloseRun?)
    && (s.q.closed <==> s.loop.CloseDrain? || s.loop.CloseRun? || s.loop.Closed?)
    && (s.loop.CloseRun? || s.loop.Closed? ==> s.q.commands == [])
  }

  predicate Bounded(s: State) {
    match s.loop
    case Clear(i) => i <= MAX_SETTLE_ROUNDS
    case Look(i) => i <= MAX_SETTLE_ROUNDS
    case Again(i) => i < MAX_SETTLE_ROUNDS
    case Drain(i) => i < MAX_SETTLE_ROUNDS
    case Run(i) => i < MAX_SETTLE_ROUNDS
    case Rounds(i) => i < MAX_SETTLE_ROUNDS
    case _ => true
  }

  predicate Inv(s: State) { Announced(s) && NothingSleeps(s) && InOrder(s) && Bounded(s) }

  lemma RequesterKeeps(s: State, a: Action)
    requires Inv(s) && Enabled(s, a) && !a.Step? && !a.Close?
    ensures Inv(Apply(s, a))
  {
    var t := Apply(s, a);
    if a.Notify? || a.Stop? || (a.Request? && !s.q.closed) {
      assert t.requesters[a.id].Queued?;
    }
    if a.Request? {
      assert s.ran + s.q.batch + (s.q.commands + [a.c]) == s.accepted + [a.c];
    }
    if a.Swap? && !s.wakePending {
      assert t.requesters[a.id].Due?;
    }
    assert forall id :: id in t.requesters && id != a.id ==> id in s.requesters && t.requesters[id] == s.requesters[id];
    assert forall id :: id in s.requesters && id != a.id ==> id in t.requesters && t.requesters[id] == s.requesters[id];
  }

  lemma RunKeepsOrder(s: State)
    requires InOrder(s) && s.q.batch != []
    ensures s.ran + [s.q.batch[0]] + s.q.batch[1..] + s.q.commands == s.accepted
  {
    assert [s.q.batch[0]] + s.q.batch[1..] == s.q.batch;
    assert s.ran + [s.q.batch[0]] + s.q.batch[1..] == s.ran + ([s.q.batch[0]] + s.q.batch[1..]);
  }

  lemma TakeKeepsOrder(s: State)
    requires InOrder(s) && s.q.batch == []
    ensures s.ran + s.q.commands + [] == s.accepted
  {
    assert s.ran + [] == s.ran;
    assert s.ran + s.q.commands + [] == s.ran + s.q.commands;
  }

  lemma LoopKeepsOrder(s: State, reported: bool, owed: nat)
    requires InOrder(s) && Enabled(s, Step(reported, owed))
    ensures InOrder(LoopStep(s, reported, owed))
  {
    if Settling(s) {
      SettleKeepsOrder(s, owed);
    } else if Ending(s) {
      EndKeepsOrder(s, owed);
    } else {
      PassKeepsOrder(s, reported, owed);
    }
  }

  lemma PassKeepsOrder(s: State, reported: bool, owed: nat)
    requires InOrder(s) && !Settling(s) && !Ending(s)
    ensures InOrder(PassStep(s, reported, owed))
  {
    if s.q.batch != [] {
      RunKeepsOrder(s);
    } else {
      TakeKeepsOrder(s);
    }
  }

  lemma EndKeepsOrder(s: State, owed: nat)
    requires InOrder(s) && Ending(s)
    ensures InOrder(EndStep(s, owed))
  {
    if s.q.batch != [] {
      RunKeepsOrder(s);
    } else {
      TakeKeepsOrder(s);
    }
  }

  lemma SettleKeepsOrder(s: State, owed: nat)
    requires InOrder(s) && Settling(s)
    ensures InOrder(SettleStep(s, owed))
  {
    if s.q.batch != [] {
      RunKeepsOrder(s);
    } else {
      TakeKeepsOrder(s);
    }
  }

  lemma LoopKeepsAnnounced(s: State, reported: bool, owed: nat)
    requires Announced(s) && Enabled(s, Step(reported, owed))
    ensures Announced(LoopStep(s, reported, owed))
  {
  }

  lemma LoopKeepsAwake(s: State, reported: bool, owed: nat)
    requires Announced(s) && NothingSleeps(s) && Bounded(s) && Enabled(s, Step(reported, owed))
    ensures NothingSleeps(LoopStep(s, reported, owed)) && Bounded(LoopStep(s, reported, owed))
  {
    if Settling(s) {
      SettleKeepsAwake(s, owed);
    } else if !Ending(s) {
      PassKeepsAwake(s, reported, owed);
    }
  }

  lemma SettleKeepsAwake(s: State, owed: nat)
    requires Announced(s) && Bounded(s) && Settling(s)
    ensures NothingSleeps(SettleStep(s, owed)) && Bounded(SettleStep(s, owed))
  {
  }

  lemma PassKeepsAwake(s: State, reported: bool, owed: nat)
    requires !Settling(s) && !Ending(s)
    ensures NothingSleeps(PassStep(s, reported, owed)) && Bounded(PassStep(s, reported, owed))
  {
  }

  lemma {:induction false} RunKeeps(s: State, run: seq<Action>)
    requires Init(s)
    ensures Inv(After(s, run))
  {
    if run != [] {
      RunKeeps(s, run[..|run| - 1]);
      var before, a := After(s, run[..|run| - 1]), run[|run| - 1];
      if Enabled(before, a) {
        match a {
          case Step(reported, owed) => {
            LoopKeepsOrder(before, reported, owed);
            LoopKeepsAnnounced(before, reported, owed);
            LoopKeepsAwake(before, reported, owed);
          }
          case Close => {}
          case _ => RequesterKeeps(before, a);
        }
      }
    }
  }

  // ---- What follows for every run.

  /** A loop that waits with commands queued, or once it has been stopped, has been woken, or a requester is about to see
      to it. */
  lemma NoCommandIsSleptThrough(s: State, run: seq<Action>)
    requires Init(s) && After(s, run).loop.Waiting?
    ensures var t := After(s, run);
            && (t.q.commands != [] ==> t.posted || SomeQueued(t.requesters) || SomeDue(t.requesters))
            && (t.q.redeliver > 0 ==> t.posted || SomeDue(t.requesters))
            && (t.stopping ==> t.posted || SomeQueued(t.requesters) || SomeDue(t.requesters))
            && (t.requesters == map[] && !t.posted ==>
                  t.q.commands == [] && t.q.redeliver == 0 && t.ran == t.accepted && !t.stopping)
  {
    RunKeeps(s, run);
  }

  /** What has run is a prefix of what was accepted, and once the engine has closed it is all of it,
      with nothing accepted after. */
  lemma CommandsRunOnceInOrder(s: State, run: seq<Action>, more: seq<Action>)
    requires Init(s)
    ensures After(s, run).ran <= After(s, run).accepted
    ensures After(s, run).loop.Closed? ==>
              After(s, run).ran == After(s, run).accepted && After(s, run + more).accepted == After(s, run).accepted
  {
    RunKeeps(s, run);
    if After(s, run).loop.Closed? {
      ClosedStays(s, run, more);
    }
  }

  lemma {:induction false} ClosedStays(s: State, run: seq<Action>, more: seq<Action>)
    requires Init(s) && After(s, run).loop.Closed?
    ensures After(s, run + more).loop.Closed? && After(s, run + more).accepted == After(s, run).accepted
  {
    if more == [] {
      assert run + more == run;
    } else {
      var all := run + more;
      ClosedStays(s, run, more[..|more| - 1]);
      assert all[..|all| - 1] == run + more[..|more| - 1];
      RunKeeps(s, run + more[..|more| - 1]);
    }
  }

  // ---- Nothing asked of the loop is dropped.

  /** The queue has been closed in a run. */
  predicate HasClosed(s: State, run: seq<Action>) {
    run != [] &&
    var init, a := run[..|run| - 1], run[|run| - 1];
    HasClosed(s, init) || (a.Close? && Enabled(After(s, init), a))
  }

  /** The commands requested in a run before the queue was closed, in the order of the requests. */
  function Requested(s: State, run: seq<Action>): seq<Command> {
    if run == [] then [] else
    var init, a := run[..|run| - 1], run[|run| - 1];
    Requested(s, init) + if a.Request? && Enabled(After(s, init), a) && !HasClosed(s, init) then [a.c] else []
  }

  /** A step of the loop that runs a command. */
  predicate RunsOne(s: State, a: Action) {
    a.Step? && s.q.batch != [] && (s.loop.Running? || s.loop.Run? || s.loop.LastRun? || s.loop.CloseRun?)
  }

  /** How many rounds the commands run have left. */
  function Owed(s: State, run: seq<Action>): nat {
    if run == [] then 0 else
    var init, a := run[..|run| - 1], run[|run| - 1];
    Owed(s, init) + if RunsOne(After(s, init), a) then a.owed else 0
  }

  /** A step of the loop accepts nothing, closes nothing, and leaves no round out. */
  predicate Serves(s: State, t: State, owed: nat) {
    t.accepted == s.accepted && t.q.closed == s.q.closed && t.served + t.q.redeliver == s.served + s.q.redeliver + owed
  }

  lemma LoopServes(s: State, reported: bool, owed: nat)
    requires InOrder(s) && Enabled(s, Step(reported, owed))
    ensures Serves(s, LoopStep(s, reported, owed), if RunsOne(s, Step(reported, owed)) then owed else 0)
  {
  }

  lemma StepAccepts(s: State, a: Action)
    requires Inv(s) && Enabled(s, a)
    ensures var t := Apply(s, a);
            && t.accepted == s.accepted + (if a.Request? && !s.q.closed then [a.c] else [])
            && t.q.closed == (s.q.closed || a.Close?)
            && t.served + t.q.redeliver == s.served + s.q.redeliver + (if RunsOne(s, a) then a.owed else 0)
  {
    assert s.accepted + [] == s.accepted;
    if a.Step? {
      LoopServes(s, a.reported, a.owed);
    }
  }

  /** In every run the commands accepted are exactly those requested before the queue was closed, in order, and the rounds
      run and still to run are all that the commands left. */
  lemma {:induction false} NothingIsDropped(s: State, run: seq<Action>)
    requires Init(s)
    ensures var t := After(s, run);
            && t.accepted == Requested(s, run) && t.served + t.q.redeliver == Owed(s, run)
            && (t.q.closed <==> HasClosed(s, run))
  {
    if run != [] {
      var init, a := run[..|run| - 1], run[|run| - 1];
      NothingIsDropped(s, init);
      RunKeeps(s, init);
      if Enabled(After(s, init), a) {
        StepAccepts(After(s, init), a);
      } else {
        assert Requested(s, init) + [] == Requested(s, init);
      }
    }
  }

  /** Whoever asks something of the loop goes on to mark it woken, and posts the wake-up if it was not. */
  lemma AskingWakes(s: State, a: Action)
    requires Enabled(s, a)
    ensures var t := Apply(s, a);
            && (a.Notify? || a.Stop? || (a.Request? && !s.q.closed) ==> a.id in t.requesters && t.requesters[a.id].Queued?)
            && (a.Swap? ==> t.wakePending && (!s.wakePending <==> a.id in t.requesters))
            && (a.Swap? && !s.wakePending ==> t.requesters[a.id].Due?)
            && (a.Post? ==> t.posted && a.id !in t.requesters)
  {
  }

  /** In every run the loop has been told to stop exactly if someone stopped it. */
  lemma {:induction false} StopIsHeeded(s: State, run: seq<Action>)
    requires Init(s)
    ensures After(s, run).stopping <==> HasStopped(s, run)
  {
    if run != [] {
      StopIsHeeded(s, run[..|run| - 1]);
    }
  }

  predicate HasStopped(s: State, run: seq<Action>) {
    run != [] &&
    var init, a := run[..|run| - 1], run[|run| - 1];
    HasStopped(s, init) || (a.Stop? && Enabled(After(s, init), a))
  }

  /** A loop that has been told to, runs all that is queued and exits. */
  lemma LastDrainExits(s: State, reported: bool, owed: nat)
    requires Inv(s)
    ensures s.loop.LastDrain? ==> var t := LoopStep(s, reported, owed); t.loop.LastRun? && t.q.batch == s.q.commands
    ensures s.loop.LastRun? && s.q.batch != [] ==>
              var t := LoopStep(s, reported, owed); t.loop.LastRun? && |t.q.batch| == |s.q.batch| - 1
    ensures s.loop.LastRun? && s.q.batch == [] ==> LoopStep(s, reported, owed).loop.Exited?
  {
  }

  // ---- settle ends.

  /** What is left of a settle: its rounds, the stages of this one, and the commands of its batch. */
  function Left(s: State): (nat, nat, nat)
    requires Settling(s) && Bounded(s)
  {
    match s.loop
    case Clear(i) => (MAX_SETTLE_ROUNDS + 1 - i, 5, 0)
    case Look(i) => (MAX_SETTLE_ROUNDS + 1 - i, 4, 0)
    case Again(i) => (MAX_SETTLE_ROUNDS + 1 - i, 3, 0)
    case Drain(i) => (MAX_SETTLE_ROUNDS + 1 - i, 2, 0)
    case Run(i) => (MAX_SETTLE_ROUNDS + 1 - i, 1, |s.q.batch|)
    case Rounds(i) => (MAX_SETTLE_ROUNDS + 1 - i, 0, 0)
    case Claim => (0, 1, 0)
    case Posting => (0, 0, 0)
  }

  predicate Less(a: (nat, nat, nat), b: (nat, nat, nat)) {
    a.0 < b.0 || (a.0 == b.0 && (a.1 < b.1 || (a.1 == b.1 && a.2 < b.2)))
  }

  lemma SettleIsNearer(s: State, owed: nat)
    requires Settling(s) && Bounded(s) && Bounded(SettleStep(s, owed))
    ensures var t := SettleStep(s, owed); if Settling(t) then Less(Left(t), Left(s)) else t.loop == Resume(s)
  {
  }

  /** Every step of the loop in a settle takes it nearer its end, and no step of anyone else moves it back. */
  lemma SettleEnds(s: State, run: seq<Action>, a: Action)
    requires Init(s) && Settling(After(s, run)) && Enabled(After(s, run), a)
    ensures var before, after := After(s, run), After(s, run + [a]);
            && Bounded(before) && Bounded(after)
            && (a.Step? && Settling(after) ==> Less(Left(after), Left(before)))
            && (a.Step? && !Settling(after) ==> after.loop == if before.stopping then LastDrain else Waiting)
            && (!a.Step? ==> Settling(after) && Left(after) == Left(before))
  {
    RunKeeps(s, run);
    RunKeeps(s, run + [a]);
    assert (run + [a])[..|run|] == run;
    if a.Step? {
      SettleIsNearer(After(s, run), a.owed);
    }
  }
}
