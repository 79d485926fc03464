/** The engine-wide total of queued output over any run of any operations of any
    number of connections. */
module SendBudget {
  import opened Basics
  import opened SendItems
  import opened SendQueue

  /** One lock region of a connection, with what the system calls in it report. */
  datatype Op =
    | Send(data: seq<Byte>, mode: Mode, room: nat, w: Sys)
    | SendParts(first: seq<Byte>, second: seq<Byte>, shared: bool, w: Sys)
    | SendFile(content: seq<Byte>, sealed: bool)
    | SendRecord(typ: nat, data: seq<Byte>)
    | Cork
    | Uncork(w: Sys, file: FileRead)
    | Flush(w: Sys, file: FileRead)
    | FlushTurn(w: Sys, file: FileRead)
    | HasQueued
    | ChargeRound
    | KernelTLS
    | CloseWrite
    | CloseAfterSend
    | MarkClosing
    | MarkClosed

  /** Whether the operation's caller may ask for it now. */
  predicate Allowed(c: Connection, op: Op)
    reads c
  {
    match op
    case Send(data, mode, room, _) => mode.Pooled? ==> |data| <= room
    case SendFile(content, _) => content != []
    case SendRecord(typ, data) => typ > 0 && data != []
    case FlushTurn(_, _) => c.flushing
    case _ => true
  }

  /** What each connection has charged to the engine's total. */
  function Shares(cs: seq<Connection>): (r: seq<int>)
    reads cs
    ensures |r| == |cs| && forall i :: 0 <= i < |cs| ==> r[i] == cs[i].charged
  {
    if cs == [] then [] else [cs[0].charged] + Shares(cs[1..])
  }

  function Sum(s: seq<int>): int { if s == [] then 0 else s[0] + Sum(s[1..]) }

  predicate Distinct(cs: seq<Connection>) { forall i, j :: 0 <= i < j < |cs| ==> cs[i] != cs[j] }

  /** Every connection is valid, and the total is the sum of their shares. */
  ghost predicate Balanced(engine: Engine, cs: seq<Connection>)
    reads engine, cs
  {
    && Distinct(cs) && engine.pendingTotal == Sum(Shares(cs))
    && forall i :: 0 <= i < |cs| ==> cs[i].engine == engine && cs[i].Valid()
  }

  /** The operations that only set a flag. */
  method SetFlag(c: Connection, op: Op)
    requires c.Valid() && (op.Cork? || op.KernelTLS? || op.CloseWrite? || op.CloseAfterSend? || op.MarkClosing?)
    modifies c`corked, c`kernelTLS, c`writeShut, c`closeAfterSend, c`closing
    ensures c.Valid()
  {
    match op {
      case Cork => c.corked := true;
      case KernelTLS => c.kernelTLS := true;
      case CloseWrite => c.writeShut := true;
      case CloseAfterSend => c.closeAfterSend := true;
      case MarkClosing => c.closing := true;
    }
  }

  method Flushes(c: Connection, op: Op)
    requires c.Valid() && Allowed(c, op) && (op.Uncork? || op.Flush? || op.FlushTurn?)
    modifies c, c.engine
    ensures c.Valid() && c.engine.pendingTotal - c.charged == old(c.engine.pendingTotal - c.charged)
    ensures old(c.taken) <= c.taken && c.accepted == old(c.accepted) && c.closed == old(c.closed)
  {
    match op {
      case Uncork(w, file) => var _ := c.Uncork(w, file);
      case Flush(w, file) => var _ := c.Flush(w, file);
      case FlushTurn(w, file) => var _ := c.FlushTurn(w, file);
    }
  }

  method Apply(c: Connection, op: Op)
    requires c.Valid() && Allowed(c, op)
    modifies c, c.engine
    ensures c.Valid() && c.engine.pendingTotal - c.charged == old(c.engine.pendingTotal - c.charged)
    ensures old(c.taken) <= c.taken && old(c.accepted) <= c.accepted && (old(c.closed) ==> c.closed)
  {
    if op.Cork? || op.KernelTLS? || op.CloseWrite? || op.CloseAfterSend? || op.MarkClosing? {
      SetFlag(c, op);
      return;
    }
    match op {
      case Send(data, mode, room, w) => var _ := c.Send(data, mode, room, w);
      case SendParts(first, second, shared, w) => var _ := c.SendParts(first, second, shared, w);
      case SendFile(content, sealed) => var _, _ := c.SendFile(content, sealed);
      case SendRecord(typ, data) => var _, _ := c.SendRecord(typ, data);
      case Uncork(_, _) => Flushes(c, op);
      case Flush(_, _) => Flushes(c, op);
      case FlushTurn(_, _) => Flushes(c, op);
      case HasQueued => var _ := c.HasQueued();
      case ChargeRound => c.ChargeRound();
      case MarkClosed => c.MarkClosed();
    }
  }

  /** Where one share alone changes, the sum changes with it. */
  lemma {:induction false} OneMoves(before: seq<int>, after: seq<int>, k: nat)
    requires k < |before| == |after| && after == before[k := after[k]]
    ensures Sum(after) - after[k] == Sum(before) - before[k]
  {
    if k > 0 {
      OneMoves(before[1..], after[1..], k - 1);
    } else {
      assert after[1..] == before[1..];
    }
  }

  /** What an operation has done to the bytes of every connection: more accepted, more taken. */
  twostate predicate Grown(cs: seq<Connection>)
    reads cs
  {
    forall i :: 0 <= i < |cs| ==> old(cs[i].taken) <= cs[i].taken && old(cs[i].accepted) <= cs[i].accepted
  }

  method Step(engine: Engine, cs: seq<Connection>, k: nat, op: Op)
    requires Balanced(engine, cs) && k < |cs| && Allowed(cs[k], op)
    modifies engine, cs[k]
    ensures Balanced(engine, cs) && Grown(cs)
  {
    ghost var before := Shares(cs);
    Apply(cs[k], op);
    forall i | 0 <= i < |cs| && i != k
      ensures cs[i].Valid() && unchanged(cs[i])
    {
      assert cs[i] != cs[k] && old(cs[i].Valid());
    }
    OneMoves(before, Shares(cs), k);
  }

  /** Any run: `script` says which connection does what, in the order its locks were taken. */
  method Run(engine: Engine, cs: seq<Connection>, script: seq<(nat, Op)>)
    requires Balanced(engine, cs)
    modifies engine, cs
    ensures Balanced(engine, cs) && Grown(cs)
  {
    for n := 0 to |script|
      invariant Balanced(engine, cs) && Grown(cs)
    {
      var (k, op) := script[n];
      if k < |cs| && Allowed(cs[k], op) {
        Step(engine, cs, k, op);
      }
    }
  }

  lemma {:induction false} SumOfShares(s: seq<int>)
    requires forall i :: 0 <= i < |s| ==> s[i] >= 0
    ensures Sum(s) >= 0 && ((forall i :: 0 <= i < |s| ==> s[i] == 0) ==> Sum(s) == 0)
  {
    if s != [] {
      SumOfShares(s[1..]);
    }
  }

  /** The total never runs below nothing, and all of it is given back once every
      connection has drained or closed. */
  lemma BudgetReturns(engine: Engine, cs: seq<Connection>)
    requires Balanced(engine, cs)
    ensures engine.pendingTotal >= 0
    ensures (forall i :: 0 <= i < |cs| ==> cs[i].Queue() == []) ==> engine.pendingTotal == 0
  {
    SumOfShares(Shares(cs));
  }
}
