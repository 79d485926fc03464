/** A connection's rounds, pauses and close as a transition system: what every
    step of a round, of the event loop, of the kernel, of any number of other
    goroutines and of the engine's own shutdown does to the connection. */
module Rounds {
  import opened RoundState

  // ---- The steps of a round, each named after the gap it leaves.

  /** The round is past the flush: what it does with the rest of its events. */
  function AfterFlush(ev: Events): Round {
    if ev.pri then PriorityDue(ev) else if ev.inp then QueueCheck(ev) else EndCheck(ev, NONE)
  }

  /** Where a round goes when the flush it ran is over. */
  function Resume(ev: Events, next: After, end: FlushEnd): Round {
    if end.Yielded? then Flushing(ev, next) else
    match next
    case EndRead(ok) => if ok && end.Ended? then EndCheck(ev, NONE) else CloseNow(NONE)
    case MidRead => if end.Ended? then StopDecision(ev, true, Hold) else Uncork(ev, EndRead(false))
    case LongRound => if end.Ended? then Recork(ev, true) else Uncork(ev, EndRead(false))
    case BeforeRead => if end.Ended? then AfterFlush(ev) else CloseNow(NONE)
  }

  function BeginRead(s: State, coalesces: bool): State {
    s.(q := s.q.(corked := s.q.corked || coalesces),
       m := s.m.(readStalled := false, readDeferred := false, roundStalled := false))
  }

  predicate Stops(s: State, deferred: Events) {
    Join(s.m.pending, deferred) == deferred && (deferred == NONE || Queued(s))
  }

  /** The region at the head of `process`'s loop when the round goes on: the new
      state and where the round is then. */
  function TakeEvents(s: State, deferred: Events, coalesces: bool): (State, Round) {
    var all := Join(s.m.pending, deferred);
    var owed := s.m.hupOwed && all.inp;
    var ev := if s.flags.readShut then all.(inp := false, pri := false, rdhup := false)
              else all.(rdhup := all.rdhup || owed);
    var u := s.(m := s.m.(pending := NONE, roundStalled := false, hupOwed := s.m.hupOwed && !owed));
    if s.life.closed || s.life.closing then (u, CloseNow(NONE))
    else if ev.inp && !ev.pri && !Queued(s) then (BeginRead(u, coalesces), CheckShut(ev))
    else (u, if ev.out then FlushCheck(ev) else AfterFlush(ev))
  }

  /** What a system call reading the socket may report. */
  datatype ReadResult = Short | Whole(left: bool) | Empty | End | Error

  predicate MayRead(s: State, r: ReadResult) {
    match r
    case Short => s.k.input
    case Whole(left) => s.k.input
    case Empty => !s.k.input
    case End => !s.k.input && s.k.ended
    case Error => true
  }

  datatype RoundStep =
    | Go(w: Write, l: Loads, lingers: bool, yes: bool, coalesces: bool, r: ReadResult)
    | Panic

  /** One step of a round at `pc`: `w`, `l`, `lingers` and `r` are what the system
      calls and unlocked loads of the step report, `coalesces` whether rounds cork
      their replies, and `yes` what a handler, or how much the round has read, decides. */
  function RoundGo(c: Config, s: State, pc: Round, a: RoundStep): (State, Round)
    requires a.Go? && !(pc.Top? && Stops(s, pc.deferred)) && !pc.Panicked?
  {
    match pc
    case Top(deferred) => TakeEvents(s, deferred, a.coalesces)
    case FlushCheck(ev) => (s, if Queued(s) && !s.q.corked then FlushDue(ev) else AfterFlush(ev))
    case FlushDue(ev) =>
      var (t, end) := Flush(c, s, a.w, a.l, a.lingers);
      (t, Resume(ev, BeforeRead, end))
    case Flushing(ev, next) =>
      var (t, end) := FlushTurn(c, s, a.w, a.l, a.lingers);
      (t, Resume(ev, next, end))
    case PriorityDue(ev) => (s, if a.yes then (if ev.inp then QueueCheck(ev) else EndCheck(ev, NONE)) else CloseNow(NONE))
    case QueueCheck(ev) => (Fold(s), if Queued(s) then DeferDecision(ev, Mark) else Begin(ev))
    case DeferDecision(ev, at) =>
      (s, match ShouldStop(c, s, at)
          case Leave => EndCheck(ev, INPUT.(rdhup := ev.rdhup))
          case ReadOn => Begin(ev)
          case LookAt(next) => DeferDecision(ev, next))
    case Begin(ev) => (BeginRead(s, a.coalesces), CheckShut(ev))
    case CheckShut(ev) => (s, if s.flags.readShut then Uncork(ev, EndRead(true)) else CheckHeld(ev))
    case CheckHeld(ev) =>
      if s.flags.held then (s.(m := s.m.(roundStalled := true)), Stall(ev, false, NONE)) else (s, Read(ev))
    case Read(ev) =>
      (match a.r
       case Short => (s.(k := s.k.(input := false)), InOnData(ev, false))
       case Whole(left) => (s.(k := s.k.(input := left)), InOnData(ev, true))
       case Empty => (s, Uncork(ev, EndRead(true)))
       case End => (s, Uncork(ev, EndRead(false)))
       case Error => (s, Uncork(ev, EndRead(false))))
    case InOnData(ev, more) =>
      (s, if !more || (a.lingers && (s.life.closing || s.life.closed)) then Uncork(ev, EndRead(true))
          else if !a.yes then Charge(ev)
          else if a.coalesces then Uncork(ev, LongRound)
          else Recork(ev, true))
    case Recork(ev, long) =>
      if long && (s.life.closing || s.life.closed) then (s, Uncork(ev, EndRead(true)))
      else (s.(q := s.q.(corked := s.q.corked || a.coalesces)), if long then Charge(ev) else CheckShut(ev))
    case Charge(ev) => (Fold(s), StopDecision(ev, false, Hold))
    case StopDecision(ev, flushed, at) =>
      (match ShouldStop(c, s, at)
       case Leave =>
         if flushed then (s.(m := s.m.(roundStalled := true)), Stall(ev, false, NONE)) else (s, Uncork(ev, MidRead))
       case ReadOn => (s, if flushed then Recork(ev, false) else CheckShut(ev))
       case LookAt(next) => (s, StopDecision(ev, flushed, next)))
    case Stall(ev, owed, deferred) =>
      (Settle(c, s.(m := s.m.(readStalled := true)), a.l), if owed then Top(deferred) else Uncork(ev, EndRead(true)))
    case Uncork(ev, next) =>
      var (t, end) := TakeCorkOff(c, s, a.w, a.l, a.lingers);
      (t, Resume(ev, next, end))
    case EndCheck(ev, deferred) =>
      (s, if ev.err then CloseNow(deferred)
          else if ev.hup || (ev.rdhup && !deferred.rdhup) then
            (if s.flags.held || s.m.roundStalled then OweEnd(ev, deferred) else CloseNow(deferred))
          else Top(deferred))
    case OweEnd(ev, deferred) => (s.(m := s.m.(hupOwed := true)), Stall(ev, true, deferred))
    case CloseNow(deferred) => (MarkClosing(s), Top(deferred))
  }

  predicate MayGo(s: State, pc: Round, a: RoundStep) {
    && a.Go? && MayWrite(s, a.w) && MayLoad(s, a.l)
    && (pc.Read? ==> MayRead(s, a.r))
  }

  /** A handler runs in these gaps, and may panic there. */
  predicate RunsHandler(pc: Round) { pc.InOnData? || pc.PriorityDue? }

  function Without(rounds: seq<Round>, i: nat): seq<Round> requires i < |rounds| { rounds[..i] + rounds[i + 1..] }

  predicate RoundNext(c: Config, s: State, t: State, i: nat, a: RoundStep) {
    && i < |s.tasks.rounds|
    && var pc := s.tasks.rounds[i];
    match a
    case Panic => RunsHandler(pc) && t == s.(tasks := s.tasks.(rounds := s.tasks.rounds[i := Panicked]))
    case Go(_, _, _, _, _, _) =>
      && MayGo(s, pc, a)
      && if pc.Panicked? then
           var g := GiveUp(s.(tasks := s.tasks.(rounds := Without(s.tasks.rounds, i))));
           t == if s.life.closePending then g else g.(ask := g.ask.(closeDecided := g.ask.closeDecided + 1))
         else if pc.Top? && Stops(s, pc.deferred) then
           t == GiveUp(s.(m := s.m.(pending := Join(s.m.pending, pc.deferred), readDeferred := pc.deferred != NONE,
                                    hupOwed := s.m.hupOwed || pc.deferred.rdhup),
                          tasks := s.tasks.(rounds := Without(s.tasks.rounds, i))))
         else
           var (u, pc') := RoundGo(c, s, pc, a);
           t == u.(tasks := u.tasks.(rounds := s.tasks.rounds[i := pc']))
  }

  // ---- The event loop and the worker pool.

  datatype LoopStep =
    | TakeEdges(ev: Events)
    | Note
    | Gather
    | Submit
    | Refuse
    | Start
    | Refresh(l: Loads)
    | CloseCommand
    | OnCloseBegins
    | OnCloseEnds
    | OnClosePanics
    | LatePanic

  /** refreshConnection's region, with a read handed back noted next. */
  function RefreshConnection(c: Config, s: State, l: Loads): State {
    var usable := !s.life.closing && !s.life.closed;
    var s := Fold(s);
    var pause := PauseDecision(c, s.m.readPaused, l.held, l.noBackpressure, s.q.pend);
    var back := s.m.readStalled && !pause;
    var s := s.(m := s.m.(readPaused := pause, readStalled := s.m.readStalled && !back));
    if back && usable then s.(e := s.e.(loop := Noting(INPUT, true))) else s
  }

  /** closeConnection with the callback: the close is left to a round, which is made if there is none. */
  function CloseConnection(s: State): State {
    if s.life.closed then s else
    var m := MarkClosed(s).(life := MarkClosed(s).life.(closePending := true), m := MarkClosed(s).m.(scheduled := true));
    if s.m.scheduled then m else m.(tasks := m.tasks.(redeliver := m.tasks.redeliver + 1))
  }

  predicate Commands(s: State) { s.e.phase.Looping? || s.e.phase.Draining? }

  predicate LoopNext(c: Config, s: State, t: State, a: LoopStep) {
    match a
    case TakeEdges(ev) =>
      && s.e.phase.Looping? && s.e.loop.Idle? && Covers(ev, s.k.edges)
      && t == s.(k := s.k.(edges := NONE), e := s.e.(loop := Noting(ev, false)))
    case Note =>
      && s.e.loop.Noting?
      && var (u, make) := NoteEvent(s, s.e.loop.ev);
         var u := u.(e := u.e.(loop := Idle));
         t == if !make then u
              else if s.e.loop.redelivers then u.(tasks := u.tasks.(redeliver := u.tasks.redeliver + 1))
              else u.(tasks := u.tasks.(listed := u.tasks.listed + 1))
    case Gather =>
      && s.e.phase.Looping? && s.e.loop.Idle? && s.tasks.redeliver > 0
      && t == s.(tasks := s.tasks.(redeliver := s.tasks.redeliver - 1, listed := s.tasks.listed + 1))
    case Submit =>
      && s.e.phase.Looping? && s.e.loop.Idle? && s.tasks.listed > 0
      && t == s.(tasks := s.tasks.(listed := s.tasks.listed - 1, submitted := s.tasks.submitted + 1))
    case Refuse =>
      && s.e.phase.Looping? && s.e.loop.Idle? && s.tasks.listed > 0
      && var g := GiveUp(s.(tasks := s.tasks.(listed := s.tasks.listed - 1)));
         t == if s.life.closePending then g else g.(ask := g.ask.(closeDecided := g.ask.closeDecided + 1))
    case Start =>
      && s.tasks.submitted > 0
      && t == s.(tasks := s.tasks.(submitted := s.tasks.submitted - 1, rounds := s.tasks.rounds + [Top(NONE)]))
    case Refresh(l) =>
      && Commands(s) && s.e.loop.Idle? && s.ask.refreshQueued > 0
      && var u := s.(ask := s.ask.(refreshQueued := s.ask.refreshQueued - 1));
         MayLoad(u, l) && t == RefreshConnection(c, u, l)
    case CloseCommand =>
      && Commands(s) && s.e.loop.Idle? && s.ask.closeQueued > 0
      && t == CloseConnection(s.(ask := s.ask.(closeQueued := s.ask.closeQueued - 1)))
    case OnCloseBegins =>
      s.fin.due > 0 && t == s.(fin := s.fin.(due := s.fin.due - 1, running := s.fin.running + 1, begun := s.fin.begun + 1))
    case OnCloseEnds => s.fin.running > 0 && t == s.(fin := s.fin.(running := s.fin.running - 1))
    case OnClosePanics =>
      s.fin.running > 0 && t == s.(fin := s.fin.(running := s.fin.running - 1, panicked := s.fin.panicked + 1))
    case LatePanic =>
      && s.fin.panicked > 0
      && var g := GiveUp(s.(fin := s.fin.(panicked := s.fin.panicked - 1)));
         t == if s.life.closePending then g else g.(ask := g.ask.(closeDecided := g.ask.closeDecided + 1))
  }

  // ---- The kernel, and every other goroutine.

  datatype KernelStep =
    | Arrive
    | PeerEnds
    | WriteSpace
    | RaiseMore(ev: Events)
    | ReadOutside

  datatype SenderStep =
    | SendCopied(n: nat)
    | SendDirect(n: nat, w: Write, l: Loads)
    | SendQueued(n: nat, l: Loads)
    | SendFile(pend: nat, file: nat)
    | FlushOwed(w: Write, l: Loads, lingers: bool)
    | Cork
    | UncorkOutside(w: Write, l: Loads, lingers: bool)
    | FlushOutside(w: Write, l: Loads, lingers: bool)
    | FlushGoesOn(w: Write, l: Loads, lingers: bool)

  datatype CallerStep =
    | HoldReads(hold: bool)
    | SetBackpressure(off: bool)
    | CloseRead
    | CloseWrite
    | CloseAfterSend
    | DecideClose
    | CloseWithError
    | RequestRefresh
    | RequestClose

  /** A flush another goroutine runs; one that fails closes the connection. */
  function Flushed(r: (State, FlushEnd)): State {
    if r.1.Broken? then r.0.(ask := r.0.ask.(closeDecided := r.0.ask.closeDecided + 1)) else r.0
  }

  predicate Sends(s: State) { !s.life.closing && !s.life.closed && !s.life.refuses && !s.life.closeAfterSend }

  predicate Direct(s: State) { !Queued(s) && !s.q.flushing && !s.q.corked }

  predicate KernelNext(s: State, t: State, a: KernelStep) {
    match a
    case Arrive => t == s.(k := s.k.(input := true, edges := s.k.edges.(inp := true)))
    case PeerEnds => t == s.(k := s.k.(ended := true, edges := s.k.edges.(inp := true, rdhup := true)))
    case WriteSpace => s.k.full && t == s.(k := s.k.(full := false, edges := s.k.edges.(out := true)))
    case RaiseMore(ev) => t == s.(k := s.k.(edges := Join(s.k.edges, ev)))
    case ReadOutside => t == s.(k := s.k.(input := false))
  }

  predicate SenderNext(c: Config, s: State, t: State, a: SenderStep) {
    match a
    case SendCopied(n) => Sends(s) && s.q.corked && n > 0 && t == s.(q := s.q.(corkedBytes := s.q.corkedBytes + n))
    case SendDirect(n, w, l) =>
      && Sends(s) && Direct(s) && n > 0 && MayLoad(s, l)
      && t == (match w
               case Failed(_, _) => s.(ask := s.ask.(closeDecided := s.ask.closeDecided + 1))
               case Took(_, _, short) =>
                 if !short then s else Settle(c, s.(q := s.q.(pend := s.q.pend + n), k := s.k.(full := true)), l)
               case Blocked(_, _) => Settle(c, s.(q := s.q.(pend := s.q.pend + n), k := s.k.(full := true)), l))
    case SendQueued(n, l) =>
      && Sends(s) && !Direct(s) && n > 0 && MayLoad(s, l)
      && t == (if s.q.corked then s.(q := s.q.(pend := s.q.pend + n)) else Settle(c, s.(q := s.q.(pend := s.q.pend + n)), l))
    case SendFile(pend, file) =>
      && Sends(s) && pend + file > 0
      && t == s.(q := s.q.(pend := s.q.pend + pend, fileBytes := s.q.fileBytes + file),
                 ask := s.ask.(flushOwed := s.ask.flushOwed + if Direct(s) then 1 else 0))
    case FlushOwed(w, l, lingers) =>
      && s.ask.flushOwed > 0 && MayWrite(s, w) && MayLoad(s, l)
      && t == Flushed(Flush(c, s.(ask := s.ask.(flushOwed := s.ask.flushOwed - 1)), w, l, lingers))
    case Cork => t == s.(q := s.q.(corked := true))
    case UncorkOutside(w, l, lingers) =>
      MayWrite(s, w) && MayLoad(s, l) && t == TakeCorkOff(c, s, w, l, lingers).0
    case FlushOutside(w, l, lingers) =>
      MayWrite(s, w) && MayLoad(s, l) && t == Flush(c, s.(q := s.q.(corked := false)), w, l, lingers).0
    case FlushGoesOn(w, l, lingers) =>
      && s.q.flushing && (forall i :: 0 <= i < |s.tasks.rounds| ==> !s.tasks.rounds[i].Flushing?)
      && MayWrite(s, w) && MayLoad(s, l) && t == FlushTurn(c, s, w, l, lingers).0
  }

  predicate CallerNext(s: State, t: State, a: CallerStep) {
    match a
    case HoldReads(hold) =>
      t == if s.flags.held == hold then s
           else s.(flags := s.flags.(held := hold), ask := s.ask.(refreshOwed := s.ask.refreshOwed + 1))
    case SetBackpressure(off) =>
      t == if s.flags.noBackpressure == off then s
           else s.(flags := s.flags.(noBackpressure := off), ask := s.ask.(refreshOwed := s.ask.refreshOwed + 1))
    case CloseRead => t == s.(flags := s.flags.(readShut := true))
    case CloseWrite => t == s.(life := s.life.(refuses := true))
    case CloseAfterSend =>
      && !s.life.closing && !s.life.closed && !s.life.closeAfterSend
      && t == s.(life := s.life.(closeAfterSend := true),
                 ask := s.ask.(closeDecided := s.ask.closeDecided + if !Queued(s) && !s.q.flushing then 1 else 0))
    case DecideClose => t == s.(ask := s.ask.(closeDecided := s.ask.closeDecided + 1))
    case CloseWithError =>
      s.ask.closeDecided > 0 && t == MarkClosing(s.(ask := s.ask.(closeDecided := s.ask.closeDecided - 1)))
    case RequestRefresh =>
      && s.ask.refreshOwed > 0
      && t == s.(ask := s.ask.(refreshOwed := s.ask.refreshOwed - 1, refreshQueued := s.ask.refreshQueued + 1))
    case RequestClose =>
      s.ask.closeOwed > 0 && t == s.(ask := s.ask.(closeOwed := s.ask.closeOwed - 1, closeQueued := s.ask.closeQueued + 1))
  }

  // ---- The engine closing.

  datatype EngineStep = StopLoop | CutConnection | RoundsEnd | CloseCut | CloseCommands | RunRedelivered | Release

  predicate EngineNext(s: State, t: State, a: EngineStep) {
    match a
    case StopLoop => s.e.phase.Looping? && s.e.loop.Idle? && s.tasks.listed == 0 && t == s.(e := s.e.(phase := Stopped))
    case CutConnection =>
      && s.e.phase.Stopped?
      && t == if s.life.closed then s.(e := s.e.(phase := Cut))
              else MarkClosed(s).(e := MarkClosed(s).e.(phase := Cut, inCut := true))
    case RoundsEnd =>
      && s.e.phase.Cut? && s.tasks.submitted == 0 && s.tasks.rounds == [] && s.fin.due + s.fin.running + s.fin.panicked == 0
      && t == s.(e := s.e.(phase := Quiet))
    case CloseCut =>
      && s.e.phase.Quiet?
      && t == s.(e := s.e.(phase := CutClosed), fin := s.fin.(begun := s.fin.begun + if s.e.inCut then 1 else 0))
    case CloseCommands => s.e.phase.CutClosed? && t == s.(e := s.e.(phase := Draining))
    case RunRedelivered =>
      && s.e.phase.Draining? && s.tasks.redeliver > 0
      && t == if s.life.closePending
              then s.(tasks := s.tasks.(redeliver := s.tasks.redeliver - 1, rounds := s.tasks.rounds + [Top(NONE)]))
              else s.(tasks := s.tasks.(redeliver := s.tasks.redeliver - 1, dropped := s.tasks.dropped + 1))
    case Release =>
      && s.e.phase.Draining? && s.tasks.redeliver == 0 && s.tasks.rounds == []
      && s.fin.due + s.fin.running + s.fin.panicked == 0
      && t == s.(e := s.e.(phase := Released))
  }

  datatype Step =
    | OfRound(i: nat, round: RoundStep)
    | OfLoop(loop: LoopStep)
    | OfKernel(kernel: KernelStep)
    | OfSender(sender: SenderStep)
    | OfCaller(caller: CallerStep)
    | OfEngine(engine: EngineStep)

  predicate Takes(c: Config, s: State, t: State, a: Step) {
    match a
    case OfRound(i, r) => RoundNext(c, s, t, i, r)
    case OfLoop(l) => LoopNext(c, s, t, l)
    case OfKernel(k) => KernelNext(s, t, k)
    case OfSender(o) => SenderNext(c, s, t, o)
    case OfCaller(o) => CallerNext(s, t, o)
    case OfEngine(e) => EngineNext(s, t, e)
  }

  /** A connection as it is opened: nothing queued, nothing scheduled; the socket
      may hold input, which registering it reports. */
  predicate Init(s: State) {
    && !Queued(s) && !s.q.corked && !s.q.flushing
    && !s.life.closing && !s.life.closed && !s.life.refuses && !s.life.closeAfterSend
    && !s.m.readPaused && !s.m.readStalled && !s.m.readDeferred && !s.m.hupOwed && !s.m.roundStalled
    && !s.life.closePending && s.m.pending == NONE && !s.m.scheduled
    && s.ask.refreshOwed == s.ask.refreshQueued == s.ask.closeDecided == 0
    && s.ask.closeOwed == s.ask.closeQueued == s.ask.flushOwed == 0
    && s.tasks.listed == s.tasks.redeliver == s.tasks.submitted == s.tasks.dropped == 0 && s.tasks.rounds == []
    && s.fin.due == s.fin.running == s.fin.panicked == s.fin.begun == 0
    && s.e.loop.Idle? && s.e.phase.Looping? && !s.e.inCut
    && !s.k.full && (s.k.input ==> s.k.edges.inp) && (s.k.ended ==> s.k.edges.rdhup)
  }

  ghost predicate Next(c: Config, s: State, t: State) { exists a :: Takes(c, s, t, a) }

  ghost predicate IsRun(c: Config, run: seq<State>) {
    && |run| > 0 && Init(run[0])
    && forall k :: 0 <= k < |run| - 1 ==> Next(c, run[k], run[k + 1])
  }
}
