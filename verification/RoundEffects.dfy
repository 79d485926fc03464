/** What the steps of a connection bring about: when its reads pause and resume, when its socket is read and what becomes
    of what is read, and that what decides its close closes it. */
module RoundEffects {
  import opened RoundState
  import opened Rounds
  import opened RoundSafety

  // ---- The pause follows the backlog.

  /** Reads on a connection with `pend` bytes of backlog, by the two watermarks: paused from the high one up, running from
      the low one down, and in between as they were. */
  predicate FollowsBacklog(c: Config, l: Loads, pend: nat, was: bool, paused: bool) {
    var on := c.high > 0 && !l.noBackpressure;
    && (l.held ==> paused)
    && (on && pend >= c.high ==> paused)
    && (!l.held && !on ==> !paused)
    && (!l.held && pend < c.high && pend <= c.low ==> !paused)
    && (!l.held && on && c.low < pend < c.high ==> paused == was)
  }

  /** Settling an open connection's pause, with what a cork held counted in: its reads follow the backlog, and a read set
      aside is handed to the round there is, or to a refresh, exactly if nothing pauses them. */
  lemma SettleFollows(c: Config, s: State, l: Loads)
    requires !s.life.closing && !s.life.closed
    ensures var t := Settle(c, s, l);
            && t.q.pend == s.q.pend + s.q.corkedBytes && t.q.corkedBytes == 0
            && FollowsBacklog(c, l, t.q.pend, s.m.readPaused, t.m.readPaused)
            && (s.m.readStalled && !t.m.readPaused && s.m.scheduled ==> t.m.pending.inp && !t.m.readStalled)
            && (s.m.readStalled && !t.m.readPaused && !s.m.scheduled ==> t.ask.refreshOwed == s.ask.refreshOwed + 1)
            && (t.m.readPaused ==> t.m.readStalled == s.m.readStalled && t.m.pending == s.m.pending && t.ask == s.ask)
  {
  }

  /** Refreshing does, too, and has a read set aside noted again exactly if nothing pauses it. */
  lemma RefreshFollows(c: Config, s: State, l: Loads)
    requires !s.life.closing && !s.life.closed
    ensures var t := RefreshConnection(c, s, l);
            && t.q.pend == s.q.pend + s.q.corkedBytes && FollowsBacklog(c, l, t.q.pend, s.m.readPaused, t.m.readPaused)
            && (s.m.readStalled && !t.m.readPaused ==> t.e.loop == Noting(INPUT, true) && !t.m.readStalled)
            && (!s.m.readStalled || t.m.readPaused ==> t.e.loop == s.e.loop && t.m.readStalled == s.m.readStalled)
  {
  }

  /** Bare input is set aside while reads are paused, and makes no task. */
  lemma NoteSetsAside(s: State)
    requires !s.life.closing && !s.life.closed && s.m.readPaused
    ensures NoteEvent(s, INPUT) == (s.(m := s.m.(readStalled := true)), false)
  {
  }

  /** Otherwise readiness is folded in for the connection's round, which is made if there is none, but for a write edge
      that nothing waits for. */
  lemma NoteFoldsIn(s: State, ev: Events)
    requires !s.life.closing && !s.life.closed && ev != NONE
    ensures var (t, make) := NoteEvent(s, ev);
            && (ev.inp && (!s.m.readPaused || ev.pri || ev.err || ev.hup || ev.rdhup) ==> t.m.pending.inp && t.m.scheduled)
            && (ev.pri || ev.err || ev.hup || ev.rdhup ==> Covers(t.m.pending, ev) && t.m.scheduled)
            && (ev.out && Queued(s) ==> t.m.pending.out && t.m.scheduled)
            && (make <==> t.m.scheduled && !s.m.scheduled)
  {
  }

  // ---- A paused connection is not read.

  /** Its reads are paused and it has no task. */
  predicate SetAside(s: State) {
    && !s.life.closing && !s.life.closed && s.m.readPaused && !s.m.scheduled && s.tasks.rounds == []
    && s.tasks.listed == s.tasks.redeliver == s.tasks.submitted == 0
    && (s.e.loop.Noting? ==> s.e.loop.ev in {NONE, INPUT})
  }

  /** The peer sends, and the loop takes and notes its edges. */
  predicate OnlyInput(a: Step) {
    || a == OfKernel(Arrive) || a == OfLoop(Note)
    || (a.OfLoop? && a.loop.TakeEdges? && a.loop.ev in {NONE, INPUT})
  }

  ghost predicate InputStep(c: Config, s: State, t: State) { exists a :: OnlyInput(a) && Takes(c, s, t, a) }

  ghost predicate InputRun(c: Config, run: seq<State>) {
    forall k :: 0 <= k < |run| - 1 ==> InputStep(c, run[k], run[k + 1])
  }

  predicate StillAside(s: State, t: State) {
    SetAside(t) && t.q == s.q && (s.k.input ==> t.k.input) && (s.m.readStalled ==> t.m.readStalled)
  }

  lemma InputIsSetAside(c: Config, s: State, t: State)
    requires SetAside(s) && InputStep(c, s, t)
    ensures StillAside(s, t)
  {
    var a :| OnlyInput(a) && Takes(c, s, t, a);
    if a == OfLoop(Note) && s.e.loop.ev == INPUT {
      NoteSetsAside(s);
    }
  }

  /** However much the peer sends, a connection whose reads are paused makes no round: what it sent stays in the socket, and
      once an edge has told of it the read is marked for when they resume. */
  lemma {:induction false} PausedIsNotRead(c: Config, run: seq<State>, k: nat)
    requires |run| > 0 && SetAside(run[0]) && InputRun(c, run) && k < |run|
    ensures StillAside(run[0], run[k])
  {
    if k > 0 {
      PausedIsNotRead(c, run, k - 1);
      InputIsSetAside(c, run[k - 1], run[k - 1 + 1]);
    }
  }

  // ---- Reading.

  /** A round comes to its read only past a check that found the read side open and reads not held. */
  lemma ReadsOnlyUnheld(c: Config, s: State, pc: Round, a: RoundStep)
    requires a.Go? && !(pc.Top? && Stops(s, pc.deferred)) && !pc.Panicked?
    ensures RoundGo(c, s, pc, a).1.Read? ==> pc.CheckHeld? && !s.flags.held
    ensures RoundGo(c, s, pc, a).1.CheckHeld? ==> pc.CheckShut? && !s.flags.readShut
    ensures pc.CheckHeld? && !s.flags.held ==> RoundGo(c, s, pc, a).1.Read?
  {
  }

  lemma FlushLeavesInput(c: Config, s: State, w: Write, l: Loads, lingers: bool)
    ensures FlushTurn(c, s, w, l, lingers).0.k.input == s.k.input
    ensures Flush(c, s, w, l, lingers).0.k.input == s.k.input
    ensures TakeCorkOff(c, s, w, l, lingers).0.k.input == s.k.input
  {
    TurnLeavesInput(c, s, w, l, lingers);
    TurnLeavesInput(c, s.(q := s.q.(flushing := true)), w, l, lingers);
    var u := Fold(s.(q := s.q.(corked := false)));
    TurnLeavesInput(c, u.(q := u.q.(flushing := true)), w, l, lingers);
  }

  lemma TurnLeavesInput(c: Config, s: State, w: Write, l: Loads, lingers: bool)
    ensures FlushTurn(c, s, w, l, lingers).0.k.input == s.k.input
  {
  }

  lemma RoundLeavesInput(c: Config, s: State, pc: Round, a: RoundStep)
    requires a.Go? && !(pc.Top? && Stops(s, pc.deferred)) && !pc.Panicked?
    ensures var (t, next) := RoundGo(c, s, pc, a); s.k.input && !t.k.input ==> pc.Read? && next.InOnData?
  {
    match pc {
      case FlushDue(_) => FlushLeavesInput(c, s, a.w, a.l, a.lingers);
      case Flushing(_, _) => FlushLeavesInput(c, s, a.w, a.l, a.lingers);
      case Uncork(_, _) => FlushLeavesInput(c, s, a.w, a.l, a.lingers);
      case _ =>
    }
  }

  lemma SenderLeavesInput(c: Config, s: State, t: State, a: SenderStep)
    requires SenderNext(c, s, t, a)
    ensures t.k.input == s.k.input
  {
    match a {
      case FlushOwed(w, l, lingers) =>
        FlushLeavesInput(c, s.(ask := s.ask.(flushOwed := s.ask.flushOwed - 1)), w, l, lingers);
      case UncorkOutside(w, l, lingers) => FlushLeavesInput(c, s, w, l, lingers);
      case FlushOutside(w, l, lingers) => FlushLeavesInput(c, s.(q := s.q.(corked := false)), w, l, lingers);
      case FlushGoesOn(w, l, lingers) => FlushLeavesInput(c, s, w, l, lingers);
      case _ =>
    }
  }

  lemma OthersLeaveInput(c: Config, s: State, t: State, a: Step)
    requires Takes(c, s, t, a) && (a.OfLoop? || a.OfCaller? || a.OfEngine?)
    ensures t.k.input == s.k.input
  {
  }

  /** Input leaves the socket only for a handler: by a round that is in OnData next, or read by another. */
  lemma InputIsDelivered(c: Config, s: State, t: State, a: Step)
    requires Takes(c, s, t, a) && s.k.input && !t.k.input
    ensures || a == OfKernel(ReadOutside)
            || (a.OfRound? && a.i < |t.tasks.rounds| && s.tasks.rounds[a.i].Read? && t.tasks.rounds[a.i].InOnData?)
  {
    match a {
      case OfRound(i, r) =>
        var pc := s.tasks.rounds[i];
        if r.Go? && !pc.Panicked? && !(pc.Top? && Stops(s, pc.deferred)) {
          RoundLeavesInput(c, s, pc, r);
        }
      case OfKernel(_) =>
      case OfSender(o) => SenderLeavesInput(c, s, t, o);
      case _ => OthersLeaveInput(c, s, t, a);
    }
  }

  // ---- What callers ask for.

  /** A hold, backpressure, and the shutting of either side last until the caller says otherwise, and a hold or backpressure
      that changes has a refresh to come. A close after sending is decided at once where there is nothing to send. */
  lemma CallsTakeEffect(s: State, t: State, a: CallerStep)
    requires CallerNext(s, t, a)
    ensures t.flags.held == if a.HoldReads? then a.hold else s.flags.held
    ensures t.flags.noBackpressure == if a.SetBackpressure? then a.off else s.flags.noBackpressure
    ensures (t.flags.held != s.flags.held || t.flags.noBackpressure != s.flags.noBackpressure) ==> RefreshDue(t)
    ensures t.flags.readShut == (s.flags.readShut || a.CloseRead?) && t.life.refuses == (s.life.refuses || a.CloseWrite?)
    ensures t.life.closeAfterSend == (s.life.closeAfterSend || a.CloseAfterSend?)
    ensures a.CloseAfterSend? && !Queued(s) && !s.q.flushing ==> t.ask.closeDecided > 0
  {
  }

  /** What waited for the queue to drain is decided when it has. */
  lemma DrainDecides(c: Config, s: State, l: Loads, lingers: bool)
    ensures s.life.closeAfterSend && !lingers ==> Drained(c, s, l, lingers).ask.closeDecided == s.ask.closeDecided + 1
    ensures !s.life.closeAfterSend || lingers ==> Drained(c, s, l, lingers).ask.closeDecided == s.ask.closeDecided
  {
  }

  /** Nothing is accepted on a connection that is closing or refuses output, and nothing is written at once on one that is
      corked. */
  lemma SendsOnlyOpen(c: Config, s: State, t: State, a: SenderStep)
    requires SenderNext(c, s, t, a) && (a.SendCopied? || a.SendDirect? || a.SendQueued? || a.SendFile?)
    ensures !s.life.closing && !s.life.closed && !s.life.refuses && !s.life.closeAfterSend
    ensures a.SendDirect? ==> !s.q.corked && !Queued(s) && !s.q.flushing
    ensures a.SendCopied? ==> s.q.corked
  {
  }

  /** Replies are held back by a cork from where a read begins, where rounds coalesce them, and by a caller's. */
  lemma CorksHold(c: Config, s: State, ev: Events, a: RoundStep)
    requires a.Go? && a.coalesces
    ensures RoundGo(c, s, Begin(ev), a).0.q.corked
    ensures forall t :: SenderNext(c, s, t, Cork) ==> t.q.corked
  {
  }

  /** A round reads on after OnData only by a load that found backpressure off or the backlog below the high watermark, past
      one that found reads not held. Otherwise it flushes what it holds and looks again, and then leaves its read marked. */
  lemma StopsAtTheMark(c: Config, s: State, ev: Events, flushed: bool, at: Look, a: RoundStep)
    requires a.Go?
    ensures var next := RoundGo(c, s, StopDecision(ev, flushed, at), a).1;
            var leaves := if flushed then Stall(ev, false, NONE) else Uncork(ev, MidRead);
            && (at.Hold? && s.flags.held ==> next == leaves)
            && (at.Backlog? && s.q.pend >= c.high ==> next == leaves)
            && (next.CheckShut? || next.Recork? ==> (at.Pressure? && (c.high <= 0 || s.flags.noBackpressure))
                                                    || (at.Backlog? && s.q.pend < c.high))
            && (at.Hold? && !s.flags.held ==> next == StopDecision(ev, flushed, Pressure))
            && (next == StopDecision(ev, flushed, Backlog) ==> at.Pressure?)
    ensures RoundGo(c, s, Stall(ev, false, NONE), a).1 == Uncork(ev, EndRead(true))
  {
  }

  /** With output queued, a round begins its read only by such a load, and leaves it for the drain where no watermark bounds
      the queue, reads are held or the backlog is at the high watermark. */
  lemma DefersAtTheMark(c: Config, s: State, ev: Events, at: Look, a: RoundStep)
    requires a.Go?
    ensures var next := RoundGo(c, s, DeferDecision(ev, at), a).1;
            && (next.Begin? ==> (at.Pressure? && (c.high <= 0 || s.flags.noBackpressure))
                                || (at.Backlog? && s.q.pend < c.high))
            && (at.Mark? && c.high <= 0 && !s.flags.noBackpressure ==> next == EndCheck(ev, INPUT.(rdhup := ev.rdhup)))
            && (at.Hold? && s.flags.held ==> next == EndCheck(ev, INPUT.(rdhup := ev.rdhup)))
            && (at.Backlog? && s.q.pend >= c.high ==> next == EndCheck(ev, INPUT.(rdhup := ev.rdhup)))
    ensures Queued(s) ==> RoundGo(c, s, QueueCheck(ev), a).1 == DeferDecision(ev, Mark)
  {
  }

  // ---- Sending.

  function InQueue(s: State): nat { s.q.pend + s.q.corkedBytes + s.q.fileBytes }

  /** What a send leaves unsent is queued: all of it but where the socket takes it at once or fails, and a file that comes to
      an empty queue has a flush to come. */
  lemma SendsAreQueued(c: Config, s: State, t: State, a: SenderStep)
    requires SenderNext(c, s, t, a)
    ensures a.SendCopied? || a.SendQueued? ==> InQueue(t) == InQueue(s) + a.n
    ensures a.SendDirect? ==> InQueue(t) == InQueue(s) + if a.w.Blocked? || (a.w.Took? && a.w.short) then a.n else 0
    ensures a.SendDirect? && InQueue(t) > InQueue(s) ==> t.k.full
    ensures a.SendFile? ==> InQueue(t) == InQueue(s) + a.pend + a.file && (Direct(s) ==> t.ask.flushOwed > 0)
  {
  }

  // ---- Closing.

  /** What decides that a connection closes: a read that meets the end or fails, an error or hang-up reported, a handler's
      panic or refusal, a write that fails, a task the pool refuses, and a caller. */
  predicate Decides(s: State, a: Step) {
    match a
    case OfRound(i, r) => i == 0 && |s.tasks.rounds| > 0 && RoundDecides(s, s.tasks.rounds[0], r)
    case OfLoop(l) => l.Refuse?
    case OfSender(o) =>
      || (o.SendDirect? && o.w.Failed?)
      || (o.FlushOwed? && o.w.Failed? && Queued(s) && !s.q.flushing)
      || (o.FlushGoesOn? && o.w.Failed? && Queued(s))
    case OfCaller(o) => o.DecideClose? || (o.CloseAfterSend? && !Queued(s) && !s.q.flushing)
    case _ => false
  }

  predicate RoundDecides(s: State, pc: Round, r: RoundStep) {
    || r.Panic?
    || (pc.Read? && (r.r.End? || r.r.Error?))
    || (pc.EndCheck? && pc.ev.err)
    || (pc.EndCheck? && (pc.ev.hup || (pc.ev.rdhup && !pc.deferred.rdhup)) && !s.flags.held && !s.m.roundStalled)
    || (pc.PriorityDue? && !r.yes)
    || (r.w.Failed? && Queued(s) && ((pc.FlushDue? && !s.q.flushing) || pc.Flushing?
                                     || (pc.Uncork? && s.q.corked && !s.q.flushing)))
  }

  lemma TurnDecides(c: Config, s: State, w: Write, l: Loads, lingers: bool)
    requires w.Failed? && Queued(s)
    ensures FlushTurn(c, s, w, l, lingers).0.ask.closeDecided > 0
  {
  }

  lemma RoundDecidesToClose(c: Config, s: State, t: State, i: nat, r: RoundStep)
    requires RoundNext(c, s, t, i, r) && Decides(s, OfRound(i, r))
    ensures !Open(t)
  {
    var pc := s.tasks.rounds[0];
    if r.Go? && r.w.Failed? && Queued(s) {
      TurnDecides(c, s, r.w, r.l, r.lingers);
      TurnDecides(c, s.(q := s.q.(flushing := true)), r.w, r.l, r.lingers);
      var u := Fold(s.(q := s.q.(corked := false)));
      TurnDecides(c, u.(q := u.q.(flushing := true)), r.w, r.l, r.lingers);
    }
  }

  lemma DecidesToClose(c: Config, s: State, t: State, a: Step)
    requires Inv(c, s) && Takes(c, s, t, a) && Decides(s, a)
    ensures !Open(t)
  {
    match a {
      case OfRound(i, r) => RoundDecidesToClose(c, s, t, i, r);
      case OfSender(o) =>
        if o.FlushOwed? && !s.life.closing && !s.life.closed {
          var u := s.(ask := s.ask.(flushOwed := s.ask.flushOwed - 1));
          TurnDecides(c, u.(q := u.q.(flushing := true)), o.w, o.l, o.lingers);
        } else if o.FlushGoesOn? {
          TurnDecides(c, s, o.w, o.l, o.lingers);
        }
      case _ =>
    }
  }

  /** A connection that is closing and not closed has a close asked for, or about to be. */
  predicate ClosingIsAsked(s: State) { s.life.closing && !s.life.closed ==> s.ask.closeOwed + s.ask.closeQueued > 0 }

  /** One that is closed holds no output. */
  predicate ClosedIsEmpty(s: State) { s.life.closed ==> !Queued(s) }

  /** A step leaves a decided close decided, an asked one asked, and a closed connection closed and empty. */
  predicate StillCloses(s: State, t: State) {
    && (ClosingIsAsked(s) ==> ClosingIsAsked(t)) && (!Open(s) ==> !Open(t))
    && (ClosedIsEmpty(s) ==> ClosedIsEmpty(t)) && (s.life.closed ==> t.life.closed)
  }

  /** Output work decides no less and asks no less. */
  predicate KeepsAsking(s: State, u: State) {
    && u.life == s.life && u.tasks == s.tasks && u.ask.closeDecided >= s.ask.closeDecided
    && u.ask.closeOwed == s.ask.closeOwed && u.ask.closeQueued == s.ask.closeQueued
    && (!Queued(s) ==> !Queued(u))
  }

  lemma FlushKeepsEmpty(c: Config, s: State, w: Write, l: Loads, lingers: bool)
    ensures !Queued(s) ==> !Queued(FlushTurn(c, s, w, l, lingers).0) && !Queued(Flush(c, s, w, l, lingers).0)
    ensures !Queued(s) ==> !Queued(TakeCorkOff(c, s, w, l, lingers).0)
  {
  }

  lemma RoundWorks(c: Config, s: State, pc: Round, r: RoundStep)
    requires MayGo(s, pc, r) && (pc.FlushDue? || pc.Uncork? || pc.Flushing?) && (pc.Flushing? ==> s.q.flushing)
    ensures var (u, next) := RoundGo(c, s, pc, r); KeepsAsking(s, u) && (Closes(pc) ==> Closes(next))
  {
    match pc {
      case FlushDue(_) => FlushMoves(c, s, r.w, r.l, r.lingers);
      case Uncork(_, _) => UncorkMoves(c, s, r.w, r.l, r.lingers);
      case Flushing(_, _) => TurnMoves(c, s, r.w, r.l, r.lingers);
    }
    FlushKeepsEmpty(c, s, r.w, r.l, r.lingers);
  }

  lemma RoundStillCloses(c: Config, s: State, t: State, i: nat, r: RoundStep)
    requires Inv(c, s) && RoundNext(c, s, t, i, r)
    ensures StillCloses(s, t)
  {
    var pc := s.tasks.rounds[i];
    if r.Go? && !pc.Panicked? && !(pc.Top? && Stops(s, pc.deferred)) {
      GoStillCloses(c, s, t, r);
    }
  }

  lemma GoStillCloses(c: Config, s: State, t: State, r: RoundStep)
    requires Inv(c, s) && |s.tasks.rounds| == 1 && MayGo(s, s.tasks.rounds[0], r)
    requires var pc := s.tasks.rounds[0]; !pc.Panicked? && !(pc.Top? && Stops(s, pc.deferred))
    requires var (u, next) := RoundGo(c, s, s.tasks.rounds[0], r); t == u.(tasks := u.tasks.(rounds := [next]))
    ensures StillCloses(s, t)
  {
    var pc := s.tasks.rounds[0];
    if pc.FlushDue? || pc.Uncork? || pc.Flushing? {
      RoundWorks(c, s, pc, r);
    } else {
      RoundAsks(c, s, pc, r);
    }
  }

  /** Any other step of a round closes what it is on its way to close, and leaves the queue's bytes and the rest alone. */
  lemma RoundAsks(c: Config, s: State, pc: Round, r: RoundStep)
    requires MayGo(s, pc, r) && !(pc.FlushDue? || pc.Uncork? || pc.Flushing?)
    requires !pc.Panicked? && !(pc.Top? && Stops(s, pc.deferred))
    ensures var (u, next) := RoundGo(c, s, pc, r);
            if pc.CloseNow? then u == MarkClosing(s)
            else && u.life == s.life && u.ask.closeDecided >= s.ask.closeDecided && u.ask.closeOwed == s.ask.closeOwed
                 && u.ask.closeQueued == s.ask.closeQueued && Queued(u) == Queued(s)
  {
  }

  lemma SenderStillCloses(c: Config, s: State, t: State, a: SenderStep)
    requires Inv(c, s) && SenderNext(c, s, t, a)
    ensures StillCloses(s, t)
  {
    if a.FlushOwed? || a.UncorkOutside? || a.FlushOutside? || a.FlushGoesOn? {
      FlushKeepsAsking(c, s, t, a);
    }
  }

  lemma FlushKeepsAsking(c: Config, s: State, t: State, a: SenderStep)
    requires SenderNext(c, s, t, a) && (a.FlushOwed? || a.UncorkOutside? || a.FlushOutside? || a.FlushGoesOn?)
    ensures KeepsAsking(s, t)
  {
    match a {
      case FlushOwed(w, l, lingers) =>
        var u := s.(ask := s.ask.(flushOwed := s.ask.flushOwed - 1));
        FlushMoves(c, u, w, l, lingers);
        FlushKeepsEmpty(c, u, w, l, lingers);
      case UncorkOutside(w, l, lingers) =>
        UncorkMoves(c, s, w, l, lingers);
        FlushKeepsEmpty(c, s, w, l, lingers);
      case FlushOutside(w, l, lingers) =>
        var u := s.(q := s.q.(corked := false));
        FlushMoves(c, u, w, l, lingers);
        FlushKeepsEmpty(c, u, w, l, lingers);
      case FlushGoesOn(w, l, lingers) =>
        TurnMoves(c, s, w, l, lingers);
        FlushKeepsEmpty(c, s, w, l, lingers);
    }
  }

  lemma LoopStillCloses(c: Config, s: State, t: State, a: LoopStep)
    requires Inv(c, s) && LoopNext(c, s, t, a)
    ensures StillCloses(s, t)
  {
  }

  lemma EngineStillCloses(c: Config, s: State, t: State, a: EngineStep)
    requires Inv(c, s) && EngineNext(s, t, a)
    ensures StillCloses(s, t)
  {
  }

  lemma CallerStillCloses(c: Config, s: State, t: State, a: CallerStep)
    requires Inv(c, s) && CallerNext(s, t, a)
    ensures StillCloses(s, t)
  {
  }

  lemma StepStillCloses(c: Config, s: State, t: State)
    requires Inv(c, s) && Next(c, s, t)
    ensures StillCloses(s, t)
  {
    var a :| Takes(c, s, t, a);
    match a {
      case OfRound(i, r) => RoundStillCloses(c, s, t, i, r);
      case OfSender(o) => SenderStillCloses(c, s, t, o);
      case OfLoop(l) => LoopStillCloses(c, s, t, l);
      case OfCaller(o) => CallerStillCloses(c, s, t, o);
      case OfEngine(e) => EngineStillCloses(c, s, t, e);
      case OfKernel(_) =>
    }
  }

  lemma RunStep(c: Config, run: seq<State>, k: nat)
    requires IsRun(c, run) && k + 1 < |run|
    ensures StillCloses(run[k], run[k + 1])
  {
    RunKeeps(c, run, k);
    StepStillCloses(c, run[k], run[k + 1]);
  }

  predicate AllStillClose(run: seq<State>) {
    forall k :: 0 <= k && k + 1 < |run| ==> StillCloses(run[k], run[k + 1])
  }

  lemma RunStillCloses(c: Config, run: seq<State>)
    requires IsRun(c, run)
    ensures AllStillClose(run)
  {
    forall k | 0 <= k && k + 1 < |run|
      ensures StillCloses(run[k], run[k + 1])
    {
      RunStep(c, run, k);
    }
  }

  lemma {:induction false} StaysDecided(run: seq<State>, j: nat, k: nat)
    requires AllStillClose(run) && j <= k < |run| && !Open(run[j])
    ensures !Open(run[k])
  {
    if j < k {
      StaysDecided(run, j, k - 1);
      assert StillCloses(run[k - 1], run[k - 1 + 1]);
    }
  }

  lemma {:induction false} StaysAsked(run: seq<State>, k: nat)
    requires AllStillClose(run) && k < |run| && ClosingIsAsked(run[0]) && ClosedIsEmpty(run[0])
    ensures ClosingIsAsked(run[k]) && ClosedIsEmpty(run[k])
  {
    if k > 0 {
      StaysAsked(run, k - 1);
      assert StillCloses(run[k - 1], run[k - 1 + 1]);
    }
  }

  /** No task is left, no close is decided or asked for and not taken, and none is being finished. */
  predicate NothingToClose(s: State) {
    && s.tasks.listed == s.tasks.redeliver == s.tasks.submitted == 0 && s.tasks.rounds == []
    && s.ask.closeDecided == s.ask.closeOwed == s.ask.closeQueued == 0
    && s.fin.due == 0 && !s.e.phase.Cut? && !s.e.phase.Quiet?
  }

  /** In every run a connection whose close was once decided is closed, holds no output, and has had its OnClose begun
      exactly once, in every later state that has nothing left to close. */
  lemma DecidedCloseHappens(c: Config, run: seq<State>, j: nat, k: nat)
    requires IsRun(c, run) && j <= k < |run| && !Open(run[j]) && NothingToClose(run[k])
    ensures run[k].life.closed && run[k].fin.begun == 1 && !Queued(run[k])
  {
    RunStillCloses(c, run);
    StaysDecided(run, j, k);
    StaysAsked(run, k);
    RunKeeps(c, run, k);
  }
}
