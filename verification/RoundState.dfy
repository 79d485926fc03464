/** The state of one connection as its rounds, its event loop, the kernel and
    any number of other goroutines see it, and the lock regions that several
    steps share: folding a cork's bytes, settling the pause, flushing, closing.

    Reads pause in place (`pausesInPlace` is true for epoll) and the server-wide
    budget is off, so a pause has two causes: a hold, and the connection's own
    backlog. */
module RoundState {

  /** The readiness bits. */
  datatype Events = Events(inp: bool, pri: bool, out: bool, err: bool, hup: bool, rdhup: bool)

  const NONE := Events(false, false, false, false, false, false)
  const INPUT := NONE.(inp := true)

  predicate Covers(a: Events, b: Events) {
    (b.inp ==> a.inp) && (b.pri ==> a.pri) && (b.out ==> a.out) &&
    (b.err ==> a.err) && (b.hup ==> a.hup) && (b.rdhup ==> a.rdhup)
  }

  function Join(a: Events, b: Events): Events {
    Events(a.inp || b.inp, a.pri || b.pri, a.out || b.out, a.err || b.err, a.hup || b.hup, a.rdhup || b.rdhup)
  }

  /** `high` is writeHighWatermark, none when zero or less; `low` is where reads resume. */
  datatype Config = Config(high: int, low: nat)

  /** Where a round goes once the flush it runs has ended. */
  datatype After = EndRead(ok: bool) | MidRead | LongRound | BeforeRead

  /** The loads from which a round decides whether to leave its read: first, where output is queued, whether a watermark
      bounds it at all, and then those of readShouldStop. */
  datatype Look = Mark | Hold | Pressure | Backlog

  /** What comes of one of them. */
  datatype Decision = Leave | ReadOn | LookAt(at: Look)

  /** Where a running round stands: each constructor is the gap before one lock
      region, one atomic load or one system call of `process` and what it calls.
      `ev` is what the round took from pendingEvents, and `deferred` the read it
      leaves to its next turn. */
  datatype Round =
    | Top(deferred: Events)
    | FlushCheck(ev: Events)
    | FlushDue(ev: Events)
    | Flushing(ev: Events, next: After)
    | PriorityDue(ev: Events)
    | QueueCheck(ev: Events)
    | DeferDecision(ev: Events, at: Look)
    | Begin(ev: Events)
    | CheckShut(ev: Events)
    | CheckHeld(ev: Events)
    | Read(ev: Events)
    | InOnData(ev: Events, more: bool)
    | Recork(ev: Events, long: bool)
    | Charge(ev: Events)
    | StopDecision(ev: Events, flushed: bool, at: Look)
    | Stall(ev: Events, owed: bool, deferred: Events)
    | Uncork(ev: Events, next: After)
    | EndCheck(ev: Events, deferred: Events)
    | OweEnd(ev: Events, deferred: Events)
    | CloseNow(deferred: Events)
    | Panicked

  datatype Loop = Idle | Noting(ev: Events, redelivers: bool)

  /** Running, then Run has returned, the connection has been cut, no round runs,
      closeCut has run, closeCommands is draining, and release has finished. */
  datatype Phase = Looping | Stopped | Cut | Quiet | CutClosed | Draining | Released

  /** The output queue: bytes counted, bytes under a cork, what is left of queued files. */
  datatype Queue = Queue(pend: nat, corkedBytes: nat, fileBytes: nat, corked: bool, flushing: bool)

  /** `refuses` is writeShut. */
  datatype Life = Life(closing: bool, closed: bool, refuses: bool, closeAfterSend: bool, closePending: bool)

  datatype Marks = Marks(readPaused: bool, readStalled: bool, readDeferred: bool, hupOwed: bool,
                         roundStalled: bool, pending: Events, scheduled: bool)

  /** The flags that are read without the lock. */
  datatype Flags = Flags(held: bool, noBackpressure: bool, readShut: bool)

  /** Goroutines between two regions: about to ask for a refresh, about to mark the
      connection closing, about to ask for the close, about to flush a queue they
      pushed to; and the refreshes and closes already in the loop's queue. */
  datatype Asked = Asked(refreshOwed: nat, refreshQueued: nat, closeDecided: nat, closeOwed: nat, closeQueued: nat,
                         flushOwed: nat)

  /** The tasks there are for the connection, wherever each is; `dropped` are those
      closeCommands discards. */
  datatype Tasks = Tasks(listed: nat, redeliver: nat, submitted: nat, rounds: seq<Round>, dropped: nat)

  /** finishClose calls before OnClose, in it, and unwinding a panic of it; and
      how many times OnClose has begun, by whomever. */
  datatype Finish = Finish(due: nat, running: nat, panicked: nat, begun: nat)

  datatype Engine = Engine(loop: Loop, phase: Phase, inCut: bool)

  /** Input readable, the peer has ended its side, a write edge is owed, and the
      edges raised that the loop has not taken. */
  datatype Kernel = Kernel(input: bool, ended: bool, full: bool, edges: Events)

  datatype State = State(q: Queue, life: Life, m: Marks, flags: Flags, ask: Asked, tasks: Tasks, fin: Finish,
                         e: Engine, k: Kernel)

  predicate Queued(s: State) { s.q.pend + s.q.corkedBytes + s.q.fileBytes > 0 }

  predicate RefreshDue(s: State) { s.ask.refreshOwed + s.ask.refreshQueued > 0 }

  /** pauseDecision with the budget off, from the hold and backpressure flags it loaded. */
  predicate PauseDecision(c: Config, paused: bool, held: bool, noBackpressure: bool, pend: nat) {
    held || (c.high > 0 && !noBackpressure && (pend >= c.high || (paused && pend > c.low)))
  }

  function ShouldStop(c: Config, s: State, at: Look): Decision {
    match at
    case Mark => if c.high <= 0 && !s.flags.noBackpressure then Leave else LookAt(Hold)
    case Hold => if s.flags.held then Leave else LookAt(Pressure)
    case Pressure => if c.high <= 0 || s.flags.noBackpressure then ReadOn else LookAt(Backlog)
    case Backlog => if s.q.pend >= c.high then Leave else ReadOn
  }

  /** What a region that decides a pause may have loaded of the two flags: their
      values now, or a value a toggle made within the region has replaced, whose
      refresh cannot have run, since refreshing takes the lock. */
  datatype Loads = Loads(held: bool, noBackpressure: bool)

  predicate MayLoad(s: State, l: Loads) {
    RefreshDue(s) || (l.held == s.flags.held && l.noBackpressure == s.flags.noBackpressure)
  }

  function FoldQueue(q: Queue): Queue { q.(pend := q.pend + q.corkedBytes, corkedBytes := 0) }

  function Fold(s: State): State { s.(q := FoldQueue(s.q)) }

  /** settlePauseLocked, and the request for a refresh it asks its caller to make
      once the lock is released: the pause follows the backlog, and a stalled read
      that nothing pauses goes to the round there is, or is left to the loop. */
  function Settle(c: Config, s: State, l: Loads): State {
    var q := FoldQueue(s.q);
    var open := !s.life.closing && !s.life.closed;
    var pause := PauseDecision(c, s.m.readPaused, l.held, l.noBackpressure, q.pend);
    var back := open && !pause && s.m.readStalled;
    s.(q := q,
       m := s.m.(readPaused := if open then pause else s.m.readPaused,
                 readStalled := s.m.readStalled && !(back && s.m.scheduled),
                 pending := s.m.pending.(inp := s.m.pending.inp || (back && s.m.scheduled))),
       ask := s.ask.(refreshOwed := s.ask.refreshOwed + if back && !s.m.scheduled then 1 else 0))
  }

  /** What one write of a flush did: `pend` and `file` are what it leaves queued
      from memory and of files, a chunk of a sealed file having moved from one to
      the other if it staged one. */
  datatype Write = Took(pend: nat, file: nat, short: bool) | Blocked(pend: nat, file: nat) | Failed(pend: nat, file: nat)

  predicate MayWrite(s: State, w: Write) {
    && w.file <= s.q.fileBytes
    && (s.q.fileBytes == 0 ==> w.pend <= s.q.pend + s.q.corkedBytes)
    && (w.Blocked? || (w.Took? && w.short) ==> w.pend + w.file > 0)
  }

  datatype FlushEnd = Ended | Yielded | Broken

  /** The end of a flush that has found the queue empty: a read deferred to this
      drain is handed back as a stalled one is, and a close that waited for it is due. */
  function Drained(c: Config, s: State, l: Loads, lingers: bool): State {
    var u := s.(q := s.q.(flushing := false),
                m := s.m.(readDeferred := false, readStalled := s.m.readStalled || s.m.readDeferred));
    var t := Settle(c, u, l);
    if s.life.closeAfterSend && !lingers
    then t.(ask := s.ask.(closeDecided := s.ask.closeDecided + 1))
    else t
  }

  /** One turn of flushLocked's loop, from its top to where the lock is next released. */
  function FlushTurn(c: Config, s: State, w: Write, l: Loads, lingers: bool): (State, FlushEnd) {
    if !Queued(s) then (Drained(c, s, l, lingers), Ended) else
    var t := s.(q := s.q.(pend := w.pend, corkedBytes := 0, fileBytes := w.file));
    match w
    case Took(_, _, short) =>
      if short then (Settle(c, t.(q := t.q.(flushing := false), k := t.k.(full := true)), l), Ended)
      else if Queued(t) then (t, Yielded)
      else (Drained(c, t, l, lingers), Ended)
    case Blocked(_, _) => (Settle(c, t.(q := t.q.(flushing := false), k := t.k.(full := true)), l), Ended)
    case Failed(_, _) => (t.(q := t.q.(flushing := false), ask := t.ask.(closeDecided := t.ask.closeDecided + 1)), Broken)
  }

  /** flushLocked from the lock it is called under. */
  function Flush(c: Config, s: State, w: Write, l: Loads, lingers: bool): (State, FlushEnd) {
    if s.life.closing || s.life.closed then (s, Broken)
    else if s.q.flushing then (Fold(s), Ended)
    else FlushTurn(c, s.(q := s.q.(flushing := true)), w, l, lingers)
  }

  /** uncork: the cork comes off and what it held is flushed under the same lock. */
  function TakeCorkOff(c: Config, s: State, w: Write, l: Loads, lingers: bool): (State, FlushEnd) {
    var t := Fold(s.(q := s.q.(corked := false)));
    if !s.q.corked || !Queued(t) then (t, Ended) else Flush(c, t, w, l, lingers)
  }

  /** closeWithError's region: the first to mark the connection closing asks for the close. */
  function MarkClosing(s: State): State {
    if s.life.closing || s.life.closed then s.(life := s.life.(closing := true))
    else s.(life := s.life.(closing := true), ask := s.ask.(closeOwed := s.ask.closeOwed + 1))
  }

  /** markClosedLocked: nothing more is read or sent, and the queue is dropped. */
  function MarkClosed(s: State): State {
    s.(life := s.life.(closed := true, closing := true), q := s.q.(pend := 0, corkedBytes := 0, fileBytes := 0))
  }

  /** A round, a refused submission or an unwound panic giving the connection up:
      a close left to it is finished here. */
  function GiveUp(s: State): State {
    s.(m := s.m.(scheduled := false), life := s.life.(closePending := false),
       fin := s.fin.(due := s.fin.due + if s.life.closePending then 1 else 0))
  }

  /** noteEvent: folds readiness in and reports whether a task has to be made for it. */
  function NoteEvent(s: State, ev: Events): (State, bool) {
    if ev == NONE || s.life.closing || s.life.closed then (s, false) else
    var owed := s.m.readPaused && ev.inp && !ev.pri && !ev.err && !ev.hup && !ev.rdhup;
    var rest := ev.(inp := ev.inp && !owed);
    var skip := rest == NONE || (rest == NONE.(out := true) && !Queued(s) && s.m.pending == NONE);
    (s.(m := s.m.(readStalled := s.m.readStalled || owed,
                  pending := if skip then s.m.pending else Join(s.m.pending, rest),
                  scheduled := s.m.scheduled || !skip)),
     !skip && !s.m.scheduled)
  }
}
