/** What every run of the connection keeps. */
module RoundSafety {
  import opened RoundState
  import opened Rounds

  // ---- What the states of a round promise.

  /** The round is on its way to read the socket, or to record that it owes that read. */
  predicate Reads(pc: Round) {
    match pc
    case Top(d) => d.inp
    case FlushCheck(ev) => ev.inp
    case FlushDue(ev) => ev.inp
    case Flushing(ev, next) => next.MidRead? || next.LongRound? || (next.BeforeRead? && ev.inp)
    case PriorityDue(ev) => ev.inp
    case QueueCheck(ev) => true
    case DeferDecision(ev, at) => true
    case Begin(ev) => true
    case CheckShut(ev) => true
    case CheckHeld(ev) => true
    case Read(ev) => true
    case InOnData(ev, more) => more
    case Recork(ev, long) => true
    case Charge(ev) => true
    case StopDecision(ev, flushed, at) => true
    case Stall(ev, owed, d) => true
    case Uncork(ev, next) => next.MidRead? || next.LongRound?
    case EndCheck(ev, d) => d.inp
    case OweEnd(ev, d) => true
    case CloseNow(d) => false
    case Panicked => false
  }

  /** The round carries the peer's end, which it has still to act on. */
  predicate CarriesEnd(pc: Round) {
    match pc
    case Top(d) => d.rdhup
    case CloseNow(d) => false
    case Panicked => false
    case Stall(ev, owed, d) => !owed && ev.rdhup
    case _ => pc.ev.rdhup
  }

  /** The round has met an error, a panic or the end, and is on its way to close. */
  predicate Closes(pc: Round) {
    pc.CloseNow? || pc.Panicked? || ((pc.Uncork? || pc.Flushing?) && pc.next == EndRead(false))
  }

  /** The round has taken a deferred read up again, and has not yet begun it. */
  predicate ResumesDeferred(pc: Round) {
    && Reads(pc)
    && (pc.Top? || pc.EndCheck? || ((pc.OweEnd? || pc.Stall?) && pc.deferred.inp)
        || pc.FlushCheck? || pc.FlushDue? || (pc.Flushing? && pc.next.BeforeRead?)
        || pc.PriorityDue? || pc.QueueCheck? || pc.DeferDecision? || pc.Begin?)
  }

  /** The round has taken input and not yet left its read behind. */
  predicate TookInput(pc: Round) {
    !pc.Top? && !pc.CloseNow? && !pc.Panicked? && !pc.OweEnd? && pc.ev.inp && !(pc.Stall? && pc.owed)
  }

  // The same of the connection's round, if it has one: OneTask shows there is no second.

  predicate RoundReads(s: State) { |s.tasks.rounds| > 0 && Reads(s.tasks.rounds[0]) }

  predicate RoundResumes(s: State) { |s.tasks.rounds| > 0 && ResumesDeferred(s.tasks.rounds[0]) }

  predicate RoundCarriesEnd(s: State) { |s.tasks.rounds| > 0 && CarriesEnd(s.tasks.rounds[0]) }

  predicate RoundFlushes(s: State) {
    |s.tasks.rounds| > 0 && (s.tasks.rounds[0].FlushDue? || (s.tasks.rounds[0].FlushCheck? && s.tasks.rounds[0].ev.out))
  }

  predicate RoundCloses(s: State) { |s.tasks.rounds| > 0 && Closes(s.tasks.rounds[0]) }

  /** Nobody has closed the connection, or decided to. */
  predicate Open(s: State) {
    && !s.life.closing && !s.life.closed && s.ask.closeDecided == 0
    && !RoundCloses(s)
  }

  predicate PauseCause(c: Config, s: State) {
    PauseDecision(c, s.m.readPaused, s.flags.held, s.flags.noBackpressure, s.q.pend)
  }

  // ---- The properties.

  /** No read is lost: input that no edge will announce is being read, or handed
      to a round, or marked with what will hand it back. */
  predicate ReadAccounted(c: Config, s: State) {
    Open(s) && !s.flags.readShut && s.k.input && !s.k.edges.inp ==>
      || (s.e.loop.Noting? && s.e.loop.ev.inp)
      || (s.m.scheduled && s.m.pending.inp)
      || RoundReads(s)
      || (s.m.readStalled && (PauseCause(c, s) || RefreshDue(s) || s.q.flushing))
      || (s.m.readDeferred && Queued(s))
  }

  /** Queued output is never stranded: it is held by a cork, being flushed, about
      to be, or waiting for a write edge that is owed, raised or with a round. */
  predicate OutputAccounted(s: State) {
    Open(s) && Queued(s) ==>
      || s.q.corked || s.q.flushing || s.ask.flushOwed > 0
      || s.k.full || s.k.edges.out
      || (s.e.loop.Noting? && s.e.loop.ev.out)
      || (s.m.scheduled && s.m.pending.out)
      || RoundFlushes(s)
  }

  /** The peer's end is never lost: its edge is still to be taken, or a round
      carries it, or it is owed with a read that is itself accounted for. */
  predicate EndAccounted(s: State) {
    Open(s) && !s.flags.readShut && s.k.ended ==>
      || s.k.edges.rdhup
      || (s.e.loop.Noting? && s.e.loop.ev.rdhup)
      || (s.m.scheduled && s.m.pending.rdhup)
      || RoundCarriesEnd(s)
      || (s.m.hupOwed && EndFollowsRead(s))
  }

  predicate EndFollowsRead(s: State) {
    || s.m.readStalled || s.m.readDeferred
    || (s.e.loop.Noting? && s.e.loop.ev.inp)
    || (s.m.scheduled && s.m.pending.inp)
    || (|s.tasks.rounds| > 0
        && ((s.tasks.rounds[0].Stall? && s.tasks.rounds[0].owed)
            || (s.tasks.rounds[0].Top? && s.tasks.rounds[0].deferred.inp)))
  }

  /** There is one task for a scheduled connection and none for another, so that
      its rounds never overlap. */
  predicate OneTask(s: State) {
    s.tasks.listed + s.tasks.redeliver + s.tasks.submitted + |s.tasks.rounds| + s.tasks.dropped
    == if s.m.scheduled then 1 else 0
  }

  /** OnClose is told at most once, never while a round could be in OnData or
      could still reach it, and exactly once by the time the engine is released. */
  predicate CloseToldOnce(s: State) {
    && s.fin.begun <= 1
    && (s.fin.begun > 0 ==> s.life.closed && s.tasks.rounds == [] && s.tasks.submitted == 0 && s.tasks.listed == 0)
    && (s.e.phase.Released? ==> s.fin.begun == 1)
  }

  // ---- What makes them inductive.

  /** A pause stands while its cause does, or a refresh or flush will look again. */
  predicate PauseStands(c: Config, s: State) {
    Open(s) && s.m.readPaused ==>
      PauseDecision(c, true, s.flags.held, s.flags.noBackpressure, s.q.pend) || RefreshDue(s) || s.q.flushing
  }

  predicate StallStands(s: State) { Open(s) && s.m.readStalled ==> s.m.readPaused || RefreshDue(s) }

  predicate DeferStands(s: State) {
    Open(s) && s.m.readDeferred ==> Queued(s) && (s.flags.readShut || s.m.pending.inp || RoundResumes(s))
  }

  predicate InputKept(s: State) {
    Open(s) && !s.flags.readShut && s.k.input && !s.k.edges.inp ==>
      || (s.e.loop.Noting? && s.e.loop.ev.inp)
      || (s.m.scheduled && s.m.pending.inp)
      || RoundReads(s)
      || s.m.readStalled || s.m.readDeferred
  }

  predicate EndOwed(s: State) {
    && (Open(s) && !s.flags.readShut && s.m.hupOwed ==> EndFollowsRead(s))
    && (|s.tasks.rounds| > 0 && TookInput(s.tasks.rounds[0]) ==> !s.m.hupOwed)
  }

  predicate FlushOwned(s: State) { |s.tasks.rounds| > 0 && s.tasks.rounds[0].Flushing? ==> s.q.flushing }

  /** The states that only a round with input to read is in. */
  predicate Reading(pc: Round) {
    || pc.QueueCheck? || pc.DeferDecision? || pc.Begin? || pc.CheckShut? || pc.CheckHeld? || pc.Read?
    || pc.InOnData? || pc.Recork? || pc.Charge? || pc.StopDecision? || (pc.Stall? && !pc.owed)
    || pc.Uncork? || (pc.Flushing? && !pc.next.BeforeRead?)
  }

  /** What a round may be carrying over: a read, with the end that came with it. */
  predicate Carried(d: Events) { d == NONE || d == INPUT || d == INPUT.(rdhup := true) }

  predicate WellPlaced(pc: Round) {
    && (Reading(pc) ==> pc.ev.inp)
    && (pc.Top? || pc.EndCheck? || pc.OweEnd? || pc.Stall? || pc.CloseNow? ==> Carried(pc.deferred))
    && (pc.Stall? && !pc.owed ==> pc.deferred == NONE)
    && (pc.EndCheck? && pc.deferred.inp ==> pc.ev.inp && pc.deferred.rdhup == pc.ev.rdhup)
  }

  predicate Placed(s: State) { |s.tasks.rounds| > 0 ==> WellPlaced(s.tasks.rounds[0]) }

  /** Who is to tell OnClose: a round the close is left to, a finishClose under way,
      or closeCut; nobody before the close, and one of them, or nobody once told, after. */
  predicate CloseCounted(s: State) {
    && (s.life.closed ==> s.life.closing)
    && (s.life.closePending ==> s.life.closed && s.m.scheduled && s.tasks.dropped == 0)
    && (if s.life.closePending then 1 else 0) + s.fin.due + s.fin.begun
       + (if s.e.inCut && (s.e.phase.Cut? || s.e.phase.Quiet?) then 1 else 0) == (if s.life.closed then 1 else 0)
    && s.fin.running + s.fin.panicked <= s.fin.begun
    && (s.e.inCut ==> s.life.closed && !s.life.closePending && s.fin.due + s.fin.running + s.fin.panicked == 0
                      && !s.e.phase.Looping? && !s.e.phase.Stopped?)
    && (s.life.closed && s.m.scheduled ==> s.life.closePending || s.e.inCut)
    && (s.life.closed && |s.tasks.rounds| + s.tasks.submitted + s.tasks.listed > 0 ==>
          s.life.closePending || (s.e.inCut && s.e.phase.Cut?))
  }

  predicate PhaseKept(s: State) {
    && (!s.e.phase.Looping? ==> s.e.loop.Idle? && s.tasks.listed == 0)
    && (!s.e.phase.Looping? && !s.e.phase.Stopped? ==> s.life.closed)
    && (s.e.phase.Quiet? || s.e.phase.CutClosed? || s.e.phase.Draining? || s.e.phase.Released? ==> s.tasks.submitted == 0)
    && (s.e.phase.Quiet? || s.e.phase.CutClosed? || s.e.phase.Released? ==> s.tasks.rounds == [] && s.fin.due == 0)
    && (s.e.phase.Released? ==> s.tasks.redeliver == 0)
    && (s.tasks.dropped > 0 ==> s.e.phase.Draining? || s.e.phase.Released?)
  }

  predicate Inv(c: Config, s: State) {
    && OneTask(s) && CloseCounted(s) && PhaseKept(s)
    && PauseStands(c, s) && StallStands(s) && DeferStands(s) && InputKept(s)
    && EndAccounted(s) && EndOwed(s) && FlushOwned(s) && Placed(s) && OutputAccounted(s)
  }

  // ---- What the output path does to the rest of the connection.

  /** Everything but the queue and the marks of owed reads is as it was. */
  predicate OutputOnly(s: State, t: State) {
    && t.life == s.life && t.flags == s.flags && t.tasks == s.tasks && t.fin == s.fin && t.e == s.e
    && t.k.input == s.k.input && t.k.ended == s.k.ended && t.k.edges == s.k.edges && (s.k.full ==> t.k.full)
    && t.m.hupOwed == s.m.hupOwed && t.m.scheduled == s.m.scheduled
    && (t.m.pending == s.m.pending || (s.m.scheduled && t.m.pending == s.m.pending.(inp := true)))
    && t.ask.refreshQueued == s.ask.refreshQueued && t.ask.closeOwed == s.ask.closeOwed
    && t.ask.closeQueued == s.ask.closeQueued && t.ask.flushOwed == s.ask.flushOwed
    && t.ask.refreshOwed >= s.ask.refreshOwed && t.ask.closeDecided >= s.ask.closeDecided
  }

  predicate Usable(s: State) { !s.life.closing && !s.life.closed && s.ask.closeDecided == 0 }

  /** An owed read is still owed, or has been handed to the round. */
  predicate ReadsStillOwed(s: State, t: State) {
    var handed := t.m.scheduled && t.m.pending.inp;
    && (s.m.readStalled ==> t.m.readStalled || handed)
    && (s.m.readDeferred ==> t.m.readDeferred || t.m.readStalled || handed)
  }

  predicate PausesStand(c: Config, t: State) {
    && (t.m.readPaused ==>
          PauseDecision(c, true, t.flags.held, t.flags.noBackpressure, t.q.pend) || RefreshDue(t) || t.q.flushing)
    && (t.m.readStalled ==> t.m.readPaused || RefreshDue(t))
  }

  /** What output work leaves behind on a connection that is not closing. */
  predicate Moved(c: Config, s: State, t: State) {
    && OutputOnly(s, t)
    && (Usable(t) ==> ReadsStillOwed(s, t))
    && (Usable(t) && PausesStand(c, s) ==> PausesStand(c, t))
    && (Usable(t) && (s.m.readDeferred ==> Queued(s)) ==> (t.m.readDeferred ==> s.m.readDeferred && Queued(t)))
  }

  lemma SettleMoves(c: Config, s: State, l: Loads)
    requires MayLoad(s, l)
    ensures Moved(c, s, Settle(c, s, l))
    ensures Usable(s) ==> PausesStand(c, Settle(c, s, l))
  {
  }

  lemma DrainedMoves(c: Config, s: State, l: Loads, lingers: bool)
    requires MayLoad(s, l) && !Queued(s)
    ensures Moved(c, s, Drained(c, s, l, lingers)) && !Queued(Drained(c, s, l, lingers))
    ensures !Drained(c, s, l, lingers).q.flushing
  {
    var u := s.(q := s.q.(flushing := false),
                m := s.m.(readDeferred := false, readStalled := s.m.readStalled || s.m.readDeferred));
    SettleMoves(c, u, l);
  }

  /** A turn of the flush leaves output queued only while it goes on, or with the socket full. */
  lemma TurnMoves(c: Config, s: State, w: Write, l: Loads, lingers: bool)
    requires MayLoad(s, l) && MayWrite(s, w) && s.q.flushing
    ensures var (t, end) := FlushTurn(c, s, w, l, lingers);
            Moved(c, s, t) && (end.Yielded? <==> t.q.flushing) && (end.Broken? ==> !Usable(t)) &&
            (Usable(t) && Queued(t) ==> t.q.flushing || t.k.full)
  {
    if Queued(s) {
      var u := s.(q := s.q.(pend := w.pend, corkedBytes := 0, fileBytes := w.file));
      if !w.Took? || w.short {
        SettleMoves(c, u.(q := u.q.(flushing := false), k := u.k.(full := true)), l);
      } else if !Queued(u) {
        DrainedMoves(c, u, l, lingers);
      }
    } else {
      DrainedMoves(c, s, l, lingers);
    }
  }

  /** Taking a cork off, folding and starting a flush change the queue alone. */
  lemma MovedAfter(c: Config, s: State, q: Queue, t: State)
    requires Moved(c, s.(q := q), t)
    requires q.pend >= s.q.pend && (s.q.flushing ==> q.flushing) && Queued(s.(q := q)) == Queued(s)
    ensures Moved(c, s, t)
  {
  }

  lemma FlushMoves(c: Config, s: State, w: Write, l: Loads, lingers: bool)
    requires MayLoad(s, l) && MayWrite(s, w)
    ensures var (t, end) := Flush(c, s, w, l, lingers);
            Moved(c, s, t) && (end.Yielded? ==> t.q.flushing) && (end.Broken? ==> !Usable(t)) &&
            (s.q.flushing && Usable(t) ==> t.q.flushing) && (Usable(t) && Queued(t) ==> t.q.flushing || t.k.full)
  {
    if s.life.closing || s.life.closed {
    } else if s.q.flushing {
      MovedAfter(c, s, FoldQueue(s.q), Fold(s));
    } else {
      var u := s.(q := s.q.(flushing := true));
      TurnMoves(c, u, w, l, lingers);
      MovedAfter(c, s, u.q, FlushTurn(c, u, w, l, lingers).0);
    }
  }

  lemma UncorkMoves(c: Config, s: State, w: Write, l: Loads, lingers: bool)
    requires MayLoad(s, l) && MayWrite(s, w)
    ensures var (t, end) := TakeCorkOff(c, s, w, l, lingers);
            Moved(c, s, t) && (end.Yielded? ==> t.q.flushing) && (end.Broken? ==> !Usable(t)) &&
            (s.q.flushing && Usable(t) ==> t.q.flushing) &&
            (Usable(t) && Queued(t) ==> t.q.flushing || t.k.full || (Queued(s) && !s.q.corked))
  {
    var u := Fold(s.(q := s.q.(corked := false)));
    FlushMoves(c, u, w, l, lingers);
    MovedAfter(c, s, u.q, u);
    MovedAfter(c, s, u.q, Flush(c, u, w, l, lingers).0);
  }

  // ---- Every step keeps the invariant.

  /** A round that goes on keeps what it promised, and starts no read of its own. */
  predicate Advances(pc: Round, next: Round) {
    && WellPlaced(next) && (TookInput(next) ==> TookInput(pc)) && !pc.Top? && !pc.Stall?
    && (!Closes(next) ==>
          && !Closes(pc) && (Reads(pc) ==> Reads(next)) && (CarriesEnd(pc) ==> CarriesEnd(next))
          && (ResumesDeferred(pc) ==> ResumesDeferred(next)))
  }

  /** A round goes on, having done output work on the way or none. */
  lemma AdvanceKeeps(c: Config, s: State, u: State, next: Round)
    requires Inv(c, s) && |s.tasks.rounds| == 1 && Moved(c, s, u)
    requires Advances(s.tasks.rounds[0], next) && (next.Flushing? ==> u.q.flushing)
    requires Usable(u) && Queued(u) ==>
               u.q.flushing || u.k.full || RoundFlushes(u.(tasks := u.tasks.(rounds := [next])))
               || u.q.corked || (Queued(s) && !s.q.corked && !RoundFlushes(s))
    requires s.q.flushing && Usable(u) ==> u.q.flushing || !Queued(u) || u.k.full
    ensures Inv(c, u.(tasks := u.tasks.(rounds := s.tasks.rounds[0 := next])))
  {
  }

  /** A round goes on that has changed nothing but what it alone looks at. */
  lemma GoesOnKeeps(c: Config, s: State, t: State, next: Round)
    requires Inv(c, s) && |s.tasks.rounds| == 1 && Advances(s.tasks.rounds[0], next)
    requires !next.Flushing? && !s.tasks.rounds[0].FlushDue? && !s.tasks.rounds[0].FlushCheck?
    requires t == s.(m := s.m.(roundStalled := t.m.roundStalled), tasks := s.tasks.(rounds := s.tasks.rounds[0 := next]))
    ensures Inv(c, t)
  {
    AdvanceKeeps(c, s, s.(m := t.m), next);
  }

  lemma ResumeAdvances(pc: Round, next: After, end: FlushEnd)
    requires (pc.FlushDue? && next == BeforeRead) || ((pc.Flushing? || pc.Uncork?) && next == pc.next)
    requires WellPlaced(pc)
    ensures Advances(pc, Resume(pc.ev, next, end))
  {
  }

  lemma FlushDueKeeps(c: Config, s: State, t: State, a: RoundStep)
    requires Inv(c, s) && RoundNext(c, s, t, 0, a) && a.Go? && s.tasks.rounds[0].FlushDue?
    ensures Inv(c, t)
  {
    FlushMoves(c, s, a.w, a.l, a.lingers);
    var pc := s.tasks.rounds[0];
    var (u, end) := Flush(c, s, a.w, a.l, a.lingers);
    ResumeAdvances(pc, BeforeRead, end);
    AdvanceKeeps(c, s, u, Resume(pc.ev, BeforeRead, end));
  }

  lemma FlushingKeeps(c: Config, s: State, t: State, a: RoundStep)
    requires Inv(c, s) && RoundNext(c, s, t, 0, a) && a.Go? && s.tasks.rounds[0].Flushing?
    ensures Inv(c, t)
  {
    TurnMoves(c, s, a.w, a.l, a.lingers);
    var pc := s.tasks.rounds[0];
    var (u, end) := FlushTurn(c, s, a.w, a.l, a.lingers);
    ResumeAdvances(pc, pc.next, end);
    AdvanceKeeps(c, s, u, Resume(pc.ev, pc.next, end));
  }

  lemma UncorkKeeps(c: Config, s: State, t: State, a: RoundStep)
    requires Inv(c, s) && RoundNext(c, s, t, 0, a) && a.Go? && s.tasks.rounds[0].Uncork?
    ensures Inv(c, t)
  {
    UncorkMoves(c, s, a.w, a.l, a.lingers);
    var pc := s.tasks.rounds[0];
    var (u, end) := TakeCorkOff(c, s, a.w, a.l, a.lingers);
    ResumeAdvances(pc, pc.next, end);
    AdvanceKeeps(c, s, u, Resume(pc.ev, pc.next, end));
  }

  lemma StopKeeps(c: Config, s: State, t: State, a: RoundStep)
    requires Inv(c, s) && RoundNext(c, s, t, 0, a) && a.Go?
    requires var pc := s.tasks.rounds[0]; pc.Top? && Stops(s, pc.deferred)
    ensures Inv(c, t)
  {
    assert s.tasks.rounds == [s.tasks.rounds[0]];
  }

  /** What a round that takes its events changes, on a connection that is not closing. */
  predicate EventsTaken(s: State, t: State, all: Events, begins: bool) {
    && t.life == s.life && t.flags == s.flags && t.ask == s.ask && t.fin == s.fin && t.e == s.e && t.k == s.k
    && t.q == s.q.(corked := t.q.corked) && (s.q.corked ==> t.q.corked)
    && |t.tasks.rounds| == 1 && t.tasks == s.tasks.(rounds := t.tasks.rounds)
    && t.m == Marks(s.m.readPaused, s.m.readStalled && !begins, s.m.readDeferred && !begins,
                    s.m.hupOwed && !all.inp, false, NONE, s.m.scheduled)
  }

  /** What the round then stands for. */
  predicate StandsFor(s: State, next: Round, all: Events, begins: bool) {
    && WellPlaced(next) && !Closes(next) && !next.Flushing?
    && (TookInput(next) ==> all.inp) && (begins ==> all.inp && Reads(next) && !Queued(s))
    && (all.out && Queued(s) ==> next.FlushCheck? && next.ev.out)
    && (!s.flags.readShut ==>
          && (all.inp ==> Reads(next) && (!begins ==> ResumesDeferred(next)))
          && (all.rdhup || (s.m.hupOwed && all.inp) ==> CarriesEnd(next)))
  }

  lemma TakenKeeps(c: Config, s: State, t: State, all: Events, begins: bool)
    requires Inv(c, s) && |s.tasks.rounds| == 1 && s.tasks.rounds[0].Top?
    requires all == Join(s.m.pending, s.tasks.rounds[0].deferred)
    requires EventsTaken(s, t, all, begins) && StandsFor(s, t.tasks.rounds[0], all, begins)
    ensures Inv(c, t)
  {
  }

  lemma TakeClosedKeeps(c: Config, s: State, t: State, a: RoundStep)
    requires Inv(c, s) && RoundNext(c, s, t, 0, a) && a.Go?
    requires var pc := s.tasks.rounds[0]; pc.Top? && !Stops(s, pc.deferred) && (s.life.closing || s.life.closed)
    ensures Inv(c, t)
  {
    assert s.tasks.rounds == [s.tasks.rounds[0]];
  }

  lemma TakeStandsFor(s: State, deferred: Events, coalesces: bool)
    requires !s.life.closing && !s.life.closed
    ensures var (u, next) := TakeEvents(s, deferred, coalesces);
            StandsFor(s, next, Join(s.m.pending, deferred), next.CheckShut?)
  {
  }

  lemma TakeKeeps(c: Config, s: State, t: State, a: RoundStep)
    requires Inv(c, s) && RoundNext(c, s, t, 0, a) && a.Go?
    requires var pc := s.tasks.rounds[0]; pc.Top? && !Stops(s, pc.deferred) && !s.life.closing && !s.life.closed
    ensures Inv(c, t)
  {
    var deferred := s.tasks.rounds[0].deferred;
    TakeStandsFor(s, deferred, a.coalesces);
    TakenKeeps(c, s, t, Join(s.m.pending, deferred), TakeEvents(s, deferred, a.coalesces).1.CheckShut?);
  }

  lemma FlushCheckKeeps(c: Config, s: State, t: State, a: RoundStep)
    requires Inv(c, s) && RoundNext(c, s, t, 0, a) && a.Go?
    requires var pc := s.tasks.rounds[0]; pc.FlushCheck?
    ensures Inv(c, t)
  {
    assert s.tasks.rounds == [s.tasks.rounds[0]];
  }

  lemma PriorityKeeps(c: Config, s: State, t: State, a: RoundStep)
    requires Inv(c, s) && RoundNext(c, s, t, 0, a) && a.Go?
    requires var pc := s.tasks.rounds[0]; pc.PriorityDue?
    ensures Inv(c, t)
  {
    GoesOnKeeps(c, s, t, t.tasks.rounds[0]);
  }

  lemma DeferKeeps(c: Config, s: State, t: State, a: RoundStep)
    requires Inv(c, s) && RoundNext(c, s, t, 0, a) && a.Go?
    requires var pc := s.tasks.rounds[0]; pc.QueueCheck? || pc.DeferDecision? || pc.Begin?
    ensures Inv(c, t)
  {
    assert s.tasks.rounds == [s.tasks.rounds[0]];
  }

  lemma CheckShutKeeps(c: Config, s: State, t: State, a: RoundStep)
    requires Inv(c, s) && RoundNext(c, s, t, 0, a) && a.Go?
    requires var pc := s.tasks.rounds[0]; pc.CheckShut?
    ensures Inv(c, t)
  {
    assert s.tasks.rounds == [s.tasks.rounds[0]];
  }

  lemma CheckHeldKeeps(c: Config, s: State, t: State, a: RoundStep)
    requires Inv(c, s) && RoundNext(c, s, t, 0, a) && a.Go?
    requires var pc := s.tasks.rounds[0]; pc.CheckHeld?
    ensures Inv(c, t)
  {
    GoesOnKeeps(c, s, t, t.tasks.rounds[0]);
  }

  lemma ReadSomeKeeps(c: Config, s: State, t: State, a: RoundStep)
    requires Inv(c, s) && RoundNext(c, s, t, 0, a) && a.Go?
    requires var pc := s.tasks.rounds[0]; pc.Read? && (a.r.Short? || a.r.Whole?)
    ensures Inv(c, t)
  {
    assert s.tasks.rounds == [s.tasks.rounds[0]];
  }

  lemma ReadNoneKeeps(c: Config, s: State, t: State, a: RoundStep)
    requires Inv(c, s) && RoundNext(c, s, t, 0, a) && a.Go?
    requires var pc := s.tasks.rounds[0]; pc.Read? && !a.r.Short? && !a.r.Whole?
    ensures Inv(c, t)
  {
    assert s.tasks.rounds == [s.tasks.rounds[0]];
  }

  lemma AfterDataKeeps(c: Config, s: State, t: State, a: RoundStep)
    requires Inv(c, s) && RoundNext(c, s, t, 0, a) && a.Go?
    requires var pc := s.tasks.rounds[0]; pc.InOnData? || pc.Charge?
    ensures Inv(c, t)
  {
    assert s.tasks.rounds == [s.tasks.rounds[0]];
  }

  lemma RecorkKeeps(c: Config, s: State, t: State, a: RoundStep)
    requires Inv(c, s) && RoundNext(c, s, t, 0, a) && a.Go?
    requires var pc := s.tasks.rounds[0]; pc.Recork?
    ensures Inv(c, t)
  {
    assert s.tasks.rounds == [s.tasks.rounds[0]];
  }

  lemma StopDecisionKeeps(c: Config, s: State, t: State, a: RoundStep)
    requires Inv(c, s) && RoundNext(c, s, t, 0, a) && a.Go?
    requires var pc := s.tasks.rounds[0]; pc.StopDecision?
    ensures Inv(c, t)
  {
    StopAdvances(c, s, s.tasks.rounds[0], a);
    GoesOnKeeps(c, s, t, t.tasks.rounds[0]);
  }

  lemma StopAdvances(c: Config, s: State, pc: Round, a: RoundStep)
    requires a.Go? && pc.StopDecision? && WellPlaced(pc)
    ensures var (u, next) := RoundGo(c, s, pc, a);
            Advances(pc, next) && !next.Flushing? && u == s.(m := s.m.(roundStalled := u.m.roundStalled))
  {
    var next := RoundGo(c, s, pc, a).1;
    assert next.Stall? || next.Uncork? || next.Recork? || next.CheckShut? || next.StopDecision?;
    StaysWithRead(pc, next);
  }

  /** Leaving a read or going on with it keeps hold of it. */
  lemma StaysWithRead(pc: Round, next: Round)
    requires pc.StopDecision? && WellPlaced(pc)
    requires || next == Stall(pc.ev, false, NONE) || next == Uncork(pc.ev, MidRead) || next == Recork(pc.ev, false)
             || next == CheckShut(pc.ev) || (next.StopDecision? && next.ev == pc.ev)
    ensures Advances(pc, next)
  {
  }

  lemma StallKeeps(c: Config, s: State, t: State, a: RoundStep)
    requires Inv(c, s) && RoundNext(c, s, t, 0, a) && a.Go?
    requires var pc := s.tasks.rounds[0]; pc.Stall?
    ensures Inv(c, t)
  {
    assert s.tasks.rounds == [s.tasks.rounds[0]];
  }

  lemma EndCheckKeeps(c: Config, s: State, t: State, a: RoundStep)
    requires Inv(c, s) && RoundNext(c, s, t, 0, a) && a.Go?
    requires var pc := s.tasks.rounds[0]; pc.EndCheck?
    ensures Inv(c, t)
  {
    assert s.tasks.rounds == [s.tasks.rounds[0]];
  }

  lemma OweEndKeeps(c: Config, s: State, t: State, a: RoundStep)
    requires Inv(c, s) && RoundNext(c, s, t, 0, a) && a.Go?
    requires var pc := s.tasks.rounds[0]; pc.OweEnd?
    ensures Inv(c, t)
  {
    assert s.tasks.rounds == [s.tasks.rounds[0]];
  }

  lemma GiveUpKeeps(c: Config, s: State, t: State, a: RoundStep)
    requires Inv(c, s) && RoundNext(c, s, t, 0, a) && a.Go?
    requires var pc := s.tasks.rounds[0]; pc.CloseNow? || pc.Panicked?
    ensures Inv(c, t)
  {
    assert s.tasks.rounds == [s.tasks.rounds[0]];
  }

  lemma PanicKeeps(c: Config, s: State, t: State)
    requires Inv(c, s) && RoundNext(c, s, t, 0, Panic)
    ensures Inv(c, t)
  {
    assert s.tasks.rounds == [s.tasks.rounds[0]];
  }

  lemma RoundKeeps(c: Config, s: State, t: State, i: nat, a: RoundStep)
    requires Inv(c, s) && RoundNext(c, s, t, i, a)
    ensures Inv(c, t)
  {
    assert i == 0;
    if a.Panic? {
      PanicKeeps(c, s, t);
    } else {
      match s.tasks.rounds[0]
      case Top(d) =>
        if Stops(s, d) { StopKeeps(c, s, t, a); }
        else if s.life.closing || s.life.closed { TakeClosedKeeps(c, s, t, a); }
        else { TakeKeeps(c, s, t, a); }
      case FlushCheck(_) => FlushCheckKeeps(c, s, t, a);
      case FlushDue(_) => FlushDueKeeps(c, s, t, a);
      case Flushing(_, _) => FlushingKeeps(c, s, t, a);
      case PriorityDue(_) => PriorityKeeps(c, s, t, a);
      case QueueCheck(_) => DeferKeeps(c, s, t, a);
      case DeferDecision(_, _) => DeferKeeps(c, s, t, a);
      case Begin(_) => DeferKeeps(c, s, t, a);
      case CheckShut(_) => CheckShutKeeps(c, s, t, a);
      case CheckHeld(_) => CheckHeldKeeps(c, s, t, a);
      case Read(_) => if a.r.Short? || a.r.Whole? { ReadSomeKeeps(c, s, t, a); } else { ReadNoneKeeps(c, s, t, a); }
      case InOnData(_, _) => AfterDataKeeps(c, s, t, a);
      case Recork(_, _) => RecorkKeeps(c, s, t, a);
      case Charge(_) => AfterDataKeeps(c, s, t, a);
      case StopDecision(_, _, _) => StopDecisionKeeps(c, s, t, a);
      case Stall(_, _, _) => StallKeeps(c, s, t, a);
      case Uncork(_, _) => UncorkKeeps(c, s, t, a);
      case EndCheck(_, _) => EndCheckKeeps(c, s, t, a);
      case OweEnd(_, _) => OweEndKeeps(c, s, t, a);
      case CloseNow(_) => GiveUpKeeps(c, s, t, a);
      case Panicked => GiveUpKeeps(c, s, t, a);
    }
  }

  /** What noting `ev` on a usable connection changes: the read it announces is owed
      or handed over, and everything else in it is handed over, unless it is a write
      edge with nothing to write. */
  predicate Noted(s: State, u: State, ev: Events, make: bool) {
    && u == s.(m := Marks(s.m.readPaused, u.m.readStalled, s.m.readDeferred, s.m.hupOwed, s.m.roundStalled,
                          u.m.pending, u.m.scheduled))
    && Covers(u.m.pending, s.m.pending) && (s.m.readStalled ==> u.m.readStalled)
    && (u.m.readStalled && !s.m.readStalled ==> s.m.readPaused)
    && u.m.scheduled == (s.m.scheduled || make) && (make ==> !s.m.scheduled)
    && (ev.inp ==> u.m.readStalled || (u.m.scheduled && u.m.pending.inp))
    && (ev.out && Queued(s) ==> u.m.scheduled && u.m.pending.out)
    && (ev.rdhup ==> u.m.scheduled && u.m.pending.rdhup)
  }

  lemma NoteNotes(s: State, ev: Events)
    requires !s.life.closing && !s.life.closed
    ensures var (u, make) := NoteEvent(s, ev); Noted(s, u, ev, make)
  {
  }

  lemma NotedKeeps(c: Config, s: State, u: State, make: bool)
    requires Inv(c, s) && s.e.loop.Noting? && Noted(s, u, s.e.loop.ev, make) && !s.life.closed
    ensures var n := if make then 1 else 0;
            && Inv(c, u.(e := s.e.(loop := Idle), tasks := s.tasks.(redeliver := s.tasks.redeliver + n)))
            && Inv(c, u.(e := s.e.(loop := Idle), tasks := s.tasks.(listed := s.tasks.listed + n)))
  {
  }

  lemma NoteKeeps(c: Config, s: State, t: State)
    requires Inv(c, s) && LoopNext(c, s, t, Note)
    ensures Inv(c, t)
  {
    if !s.life.closing && !s.life.closed {
      var (u, make) := NoteEvent(s, s.e.loop.ev);
      NoteNotes(s, s.e.loop.ev);
      NotedKeeps(c, s, u, make);
    }
  }

  /** What a refresh changes but the loop's hands: the backlog is counted, and the pause settled. */
  predicate Refreshed(c: Config, s: State, t: State, l: Loads, back: bool) {
    && t.life == s.life && t.flags == s.flags && t.fin == s.fin && t.k == s.k && t.tasks == s.tasks
    && t.q == FoldQueue(s.q) && t.e == s.e.(loop := t.e.loop)
    && t.ask == s.ask.(refreshQueued := t.ask.refreshQueued) && t.ask.refreshQueued + 1 == s.ask.refreshQueued
    && t.m == s.m.(readPaused := PauseDecision(c, s.m.readPaused, l.held, l.noBackpressure, t.q.pend),
                   readStalled := s.m.readStalled && !back)
    && back == (s.m.readStalled && !t.m.readPaused)
  }

  lemma RefreshRefreshes(c: Config, s: State, t: State, l: Loads)
    requires s.ask.refreshQueued > 0
    requires t == RefreshConnection(c, s.(ask := s.ask.(refreshQueued := s.ask.refreshQueued - 1)), l)
    ensures var back := s.m.readStalled && !t.m.readPaused;
            && Refreshed(c, s, t, l, back)
            && t.e.loop == if back && !s.life.closing && !s.life.closed then Noting(INPUT, true) else s.e.loop
  {
  }

  lemma RefreshEndsKeep(c: Config, s: State, t: State, l: Loads)
    requires Inv(c, s) && s.life.closing && Refreshed(c, s, t, l, s.m.readStalled && !t.m.readPaused)
    requires t.e.loop == s.e.loop
    ensures Inv(c, t)
  {
  }

  lemma HandedBackKeeps(c: Config, s: State, t: State, l: Loads)
    requires Inv(c, s) && s.ask.refreshQueued > 0 && MayLoad(s.(ask := t.ask), l) && Refreshed(c, s, t, l, true)
    requires Commands(s) && s.e.loop.Idle? && !s.life.closed && t.e.loop == Noting(INPUT, true)
    ensures Inv(c, t)
  {
  }

  lemma PauseSettledKeeps(c: Config, s: State, t: State, l: Loads)
    requires Inv(c, s) && s.ask.refreshQueued > 0 && MayLoad(s.(ask := t.ask), l) && Refreshed(c, s, t, l, false)
    requires t.e.loop == s.e.loop
    ensures Inv(c, t)
  {
  }

  lemma RefreshKeeps(c: Config, s: State, t: State, l: Loads)
    requires Inv(c, s) && LoopNext(c, s, t, Refresh(l))
    ensures Inv(c, t)
  {
    RefreshRefreshes(c, s, t, l);
    if s.life.closing || s.life.closed {
      RefreshEndsKeep(c, s, t, l);
    } else if s.m.readStalled && !t.m.readPaused {
      HandedBackKeeps(c, s, t, l);
    } else {
      PauseSettledKeeps(c, s, t, l);
    }
  }

  lemma TaskKeeps(c: Config, s: State, t: State, a: LoopStep)
    requires Inv(c, s) && LoopNext(c, s, t, a) && (a.TakeEdges? || a.Gather? || a.Submit? || a.Refuse? || a.Start?)
    ensures Inv(c, t)
  {
    assert a.Start? ==> s.tasks.rounds == [] && t.tasks.rounds == [Top(NONE)];
  }

  lemma FinishKeeps(c: Config, s: State, t: State, a: LoopStep)
    requires Inv(c, s) && LoopNext(c, s, t, a)
    requires a.CloseCommand? || a.OnCloseBegins? || a.OnCloseEnds? || a.OnClosePanics? || a.LatePanic?
    ensures Inv(c, t)
  {
  }

  lemma LoopKeeps(c: Config, s: State, t: State, a: LoopStep)
    requires Inv(c, s) && LoopNext(c, s, t, a)
    ensures Inv(c, t)
  {
    match a
    case Note => NoteKeeps(c, s, t);
    case Refresh(l) => RefreshKeeps(c, s, t, l);
    case CloseCommand => FinishKeeps(c, s, t, a);
    case OnCloseBegins => FinishKeeps(c, s, t, a);
    case OnCloseEnds => FinishKeeps(c, s, t, a);
    case OnClosePanics => FinishKeeps(c, s, t, a);
    case LatePanic => FinishKeeps(c, s, t, a);
    case _ => TaskKeeps(c, s, t, a);
  }

  /** Output work by another goroutine. */
  lemma MoveKeeps(c: Config, s: State, t: State)
    requires Inv(c, s) && Moved(c, s, t)
    requires |s.tasks.rounds| > 0 && s.tasks.rounds[0].Flushing? ==> t.q.flushing
    requires Usable(t) && Queued(t) ==>
               t.q.corked || t.q.flushing || t.k.full || (Queued(s) && !s.q.corked && !s.q.flushing)
    ensures Inv(c, t)
  {
  }

  lemma SendDirectKeeps(c: Config, s: State, t: State, a: SenderStep)
    requires Inv(c, s) && SenderNext(c, s, t, a) && a.SendDirect?
    ensures Inv(c, t)
  {
  }

  lemma SendQueuedKeeps(c: Config, s: State, t: State, a: SenderStep)
    requires Inv(c, s) && SenderNext(c, s, t, a) && a.SendQueued?
    ensures Inv(c, t)
  {
  }

  /** The flush a goroutine owed is no longer owed, and leaves output only in a
      flush or with the socket full; if it broke, the connection is already going. */
  lemma FlushedKeeps(c: Config, s: State, t: State, end: FlushEnd)
    requires Inv(c, s) && s.ask.flushOwed > 0 && Moved(c, s.(ask := s.ask.(flushOwed := s.ask.flushOwed - 1)), t)
    requires (s.q.flushing ==> t.q.flushing) && (end.Broken? ==> !Usable(t))
    requires Usable(t) && Queued(t) ==> t.q.flushing || t.k.full
    ensures Inv(c, Flushed((t, end)))
  {
  }

  lemma FlushOwedKeeps(c: Config, s: State, t: State, a: SenderStep)
    requires Inv(c, s) && SenderNext(c, s, t, a) && a.FlushOwed?
    ensures Inv(c, t)
  {
    var u := s.(ask := s.ask.(flushOwed := s.ask.flushOwed - 1));
    FlushMoves(c, u, a.w, a.l, a.lingers);
    var (v, end) := Flush(c, u, a.w, a.l, a.lingers);
    FlushedKeeps(c, s, v, end);
  }

  lemma UncorkOutsideKeeps(c: Config, s: State, t: State, a: SenderStep)
    requires Inv(c, s) && SenderNext(c, s, t, a) && a.UncorkOutside?
    ensures Inv(c, t)
  {
    UncorkMoves(c, s, a.w, a.l, a.lingers);
    MoveKeeps(c, s, t);
  }

  lemma FlushOutsideKeeps(c: Config, s: State, t: State, a: SenderStep)
    requires Inv(c, s) && SenderNext(c, s, t, a) && a.FlushOutside?
    ensures Inv(c, t)
  {
    var u := s.(q := s.q.(corked := false));
    FlushMoves(c, u, a.w, a.l, a.lingers);
    MovedAfter(c, s, u.q, t);
    MoveKeeps(c, s, t);
  }

  lemma FlushGoesOnKeeps(c: Config, s: State, t: State, a: SenderStep)
    requires Inv(c, s) && SenderNext(c, s, t, a) && a.FlushGoesOn?
    ensures Inv(c, t)
  {
    TurnMoves(c, s, a.w, a.l, a.lingers);
    MoveKeeps(c, s, t);
  }

  lemma KernelKeeps(c: Config, s: State, t: State, a: KernelStep)
    requires Inv(c, s) && KernelNext(s, t, a)
    ensures Inv(c, t)
  {
    EdgesKeep(c, s, t);
  }

  /** Edges are only added, input arrives with one, and a write edge owed is kept or raised. */
  lemma EdgesKeep(c: Config, s: State, t: State)
    requires Inv(c, s) && t == s.(k := t.k) && Covers(t.k.edges, s.k.edges)
    requires (t.k.input ==> s.k.input || t.k.edges.inp) && (t.k.ended ==> s.k.ended || t.k.edges.rdhup)
    requires s.k.full ==> t.k.full || t.k.edges.out
    ensures Inv(c, t)
  {
  }

  lemma QueueKeeps(c: Config, s: State, t: State, a: SenderStep)
    requires Inv(c, s) && SenderNext(c, s, t, a) && (a.SendCopied? || a.SendFile? || a.Cork?)
    ensures Inv(c, t)
  {
  }

  lemma SenderKeeps(c: Config, s: State, t: State, a: SenderStep)
    requires Inv(c, s) && SenderNext(c, s, t, a)
    ensures Inv(c, t)
  {
    match a
    case SendCopied(_) => QueueKeeps(c, s, t, a);
    case SendDirect(_, _, _) => SendDirectKeeps(c, s, t, a);
    case SendQueued(_, _) => SendQueuedKeeps(c, s, t, a);
    case SendFile(_, _) => QueueKeeps(c, s, t, a);
    case FlushOwed(_, _, _) => FlushOwedKeeps(c, s, t, a);
    case Cork => QueueKeeps(c, s, t, a);
    case UncorkOutside(_, _, _) => UncorkOutsideKeeps(c, s, t, a);
    case FlushOutside(_, _, _) => FlushOutsideKeeps(c, s, t, a);
    case FlushGoesOn(_, _, _) => FlushGoesOnKeeps(c, s, t, a);
  }

  lemma HoldKeeps(c: Config, s: State, t: State, a: CallerStep)
    requires Inv(c, s) && CallerNext(s, t, a) && (a.HoldReads? || a.SetBackpressure?)
    ensures Inv(c, t)
  {
  }

  lemma ShutKeeps(c: Config, s: State, t: State, a: CallerStep)
    requires Inv(c, s) && CallerNext(s, t, a) && (a.CloseRead? || a.CloseWrite?)
    ensures Inv(c, t)
  {
  }

  lemma CloseKeeps(c: Config, s: State, t: State, a: CallerStep)
    requires Inv(c, s) && CallerNext(s, t, a) && (a.CloseAfterSend? || a.DecideClose? || a.CloseWithError?)
    ensures Inv(c, t)
  {
  }

  lemma RequestKeeps(c: Config, s: State, t: State, a: CallerStep)
    requires Inv(c, s) && CallerNext(s, t, a) && (a.RequestRefresh? || a.RequestClose?)
    ensures Inv(c, t)
  {
  }

  lemma CallerKeeps(c: Config, s: State, t: State, a: CallerStep)
    requires Inv(c, s) && CallerNext(s, t, a)
    ensures Inv(c, t)
  {
    match a
    case HoldReads(_) => HoldKeeps(c, s, t, a);
    case SetBackpressure(_) => HoldKeeps(c, s, t, a);
    case CloseRead => ShutKeeps(c, s, t, a);
    case CloseWrite => ShutKeeps(c, s, t, a);
    case RequestRefresh => RequestKeeps(c, s, t, a);
    case RequestClose => RequestKeeps(c, s, t, a);
    case _ => CloseKeeps(c, s, t, a);
  }

  lemma EngineKeeps(c: Config, s: State, t: State, a: EngineStep)
    requires Inv(c, s) && EngineNext(s, t, a)
    ensures Inv(c, t)
  {
  }

  lemma NextKeeps(c: Config, s: State, t: State)
    requires Inv(c, s) && Next(c, s, t)
    ensures Inv(c, t)
  {
    var a :| Takes(c, s, t, a);
    match a
    case OfRound(i, r) => RoundKeeps(c, s, t, i, r);
    case OfLoop(l) => LoopKeeps(c, s, t, l);
    case OfKernel(k) => KernelKeeps(c, s, t, k);
    case OfSender(o) => SenderKeeps(c, s, t, o);
    case OfCaller(o) => CallerKeeps(c, s, t, o);
    case OfEngine(e) => EngineKeeps(c, s, t, e);
  }

  lemma {:induction false} RunKeeps(c: Config, run: seq<State>, k: nat)
    requires IsRun(c, run) && k < |run|
    ensures Inv(c, run[k])
  {
    if k > 0 {
      RunKeeps(c, run, k - 1);
      NextKeeps(c, run[k - 1], run[k - 1 + 1]);
    }
  }

  // ---- The theorems, of every state of every run.

  lemma NoReadIsLost(c: Config, run: seq<State>, k: nat)
    requires IsRun(c, run) && k < |run|
    ensures ReadAccounted(c, run[k])
  {
    RunKeeps(c, run, k);
  }

  lemma OutputIsNeverStranded(c: Config, run: seq<State>, k: nat)
    requires IsRun(c, run) && k < |run|
    ensures OutputAccounted(run[k])
    ensures Open(run[k]) && run[k].m.readDeferred ==> Queued(run[k])
  {
    RunKeeps(c, run, k);
  }

  lemma TheEndIsNeverLost(c: Config, run: seq<State>, k: nat)
    requires IsRun(c, run) && k < |run|
    ensures EndAccounted(run[k])
  {
    RunKeeps(c, run, k);
  }

  lemma RoundsNeverOverlap(c: Config, run: seq<State>, k: nat)
    requires IsRun(c, run) && k < |run|
    ensures OneTask(run[k]) && |run[k].tasks.rounds| <= 1
  {
    RunKeeps(c, run, k);
  }

  lemma OnCloseIsToldOnce(c: Config, run: seq<State>, k: nat)
    requires IsRun(c, run) && k < |run|
    ensures CloseToldOnce(run[k])
  {
    RunKeeps(c, run, k);
  }

  /** Nothing is in motion: no task, no request, no flush, no edge on its way. */
  predicate AtRest(s: State) {
    && s.tasks.listed == s.tasks.redeliver == s.tasks.submitted == 0 && s.tasks.rounds == [] && s.e.loop.Idle?
    && !RefreshDue(s) && s.ask.flushOwed == 0 && !s.q.flushing && !s.k.full && s.k.edges == NONE
  }

  /** An open connection at rest, with its socket not full, has sent all that no cork
      holds and, unless the application holds its reads or a cork its output, has read
      all there is and heard the peer's end. */
  lemma AtRestAllIsDone(c: Config, run: seq<State>, k: nat)
    requires IsRun(c, run) && k < |run| && Open(run[k]) && AtRest(run[k])
    ensures Queued(run[k]) ==> run[k].q.corked
    ensures !run[k].flags.held && !run[k].q.corked && !run[k].flags.readShut ==> !run[k].k.input && !run[k].k.ended
  {
    RunKeeps(c, run, k);
  }
}
