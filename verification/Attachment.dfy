/** A connection's attachment: two words read without the lock, guarded by a sequence
    count in the upper half of the word that holds the connection's flags. */
module Attachment {
  import opened Basics
  import opened Powers

  // ---- The word, an unsigned number of 32 bits.

  /** The unit of the sequence count, and how many steps of it there are. */
  const STEP := 65536
  const SEQ_RANGE := 65536

  predicate Word(w: nat) { w < TWO_TO_32 }

  /** The flags are below the unit, the count above it. */
  function FlagsOf(w: nat): nat { w % STEP }

  function SeqOf(w: nat): nat { w / STEP * STEP }

  /** The bit operations, a bit at a time. */
  function Or(a: nat, b: nat): nat
    decreases a + b
  {
    if a + b == 0 then 0 else 2 * Or(a / 2, b / 2) + (if a % 2 + b % 2 == 0 then 0 else 1)
  }

  function AndNot(a: nat, b: nat): nat {
    if a == 0 then 0 else 2 * AndNot(a / 2, b / 2) + (if a % 2 == 1 && b % 2 == 0 then 1 else 0)
  }

  /** Some flags cleared, and some set. */
  function Switched(w: nat, off: nat, on: nat): nat { Or(AndNot(w, off), on) }

  function Counted(w: nat): nat { (w + STEP) % TWO_TO_32 }

  lemma HalfThenRest(x: nat, p: nat)
    requires p > 0
    ensures x / (2 * p) == x / 2 / p
  {
    var q, r := x / 2 / p, x / 2 % p;
    assert x / 2 == q * p + r;
    assert x == q * (2 * p) + (2 * r + x % 2) by {
      assert 2 * (q * p) == q * (2 * p);
    }
    Quotient(x, q, 2 * p, 2 * r + x % 2);
  }

  lemma Halves(a: nat, b: nat)
    ensures Or(a, b) / 2 == Or(a / 2, b / 2) && AndNot(a, b) / 2 == AndNot(a / 2, b / 2)
  {
  }

  /** Bit operations with a number below 2^k leave what is above it alone. */
  lemma {:induction false} AboveIsLeft(a: nat, b: nat, k: nat)
    requires b < Pow2(k)
    ensures Or(a, b) / Pow2(k) == a / Pow2(k) && AndNot(a, b) / Pow2(k) == a / Pow2(k)
    decreases k
  {
    if k == 0 {
      OrNone(a);
    } else {
      var p := Pow2(k - 1);
      AboveIsLeft(a / 2, b / 2, k - 1);
      Halves(a, b);
      HalfThenRest(a, p);
      HalfThenRest(Or(a, b), p);
      HalfThenRest(AndNot(a, b), p);
    }
  }

  lemma {:induction false} OrNone(a: nat)
    ensures Or(a, 0) == a && AndNot(a, 0) == a
  {
    if a > 0 {
      OrNone(a / 2);
    }
  }

  /** The bit of a number with the weight 2^i. */
  function Bit(n: nat, i: nat): nat { n / Pow2(i) % 2 }

  lemma BitAbove(n: nat, i: nat)
    requires i > 0
    ensures Bit(n, i) == Bit(n / 2, i - 1)
  {
    HalfThenRest(n, Pow2(i - 1));
  }

  /** The lowest bit, and the lowest of what the operations make. */
  lemma LowestBit(n: nat, a: nat, b: nat)
    ensures Bit(n, 0) == n % 2 && Or(a, b) % 2 == (if a % 2 + b % 2 == 0 then 0 else 1)
    ensures AndNot(a, b) % 2 == if a % 2 == 1 && b % 2 == 0 then 1 else 0
  {
  }

  lemma {:induction false} BitOfOr(a: nat, b: nat, i: nat)
    ensures Bit(Or(a, b), i) == if Bit(a, i) + Bit(b, i) == 0 then 0 else 1
    decreases i
  {
    if i > 0 {
      Halves(a, b);
      BitOfOr(a / 2, b / 2, i - 1);
      BitAbove(a, i);
      BitAbove(b, i);
      BitAbove(Or(a, b), i);
    } else {
      LowestBit(a, a, b);
      LowestBit(b, a, b);
      LowestBit(Or(a, b), a, b);
    }
  }

  lemma {:induction false} BitOfAndNot(a: nat, b: nat, i: nat)
    ensures Bit(AndNot(a, b), i) == if Bit(a, i) == 1 && Bit(b, i) == 0 then 1 else 0
    decreases i
  {
    if i > 0 {
      Halves(a, b);
      BitOfAndNot(a / 2, b / 2, i - 1);
      BitAbove(a, i);
      BitAbove(b, i);
      BitAbove(AndNot(a, b), i);
    } else {
      LowestBit(a, a, b);
      LowestBit(b, a, b);
      LowestBit(AndNot(a, b), a, b);
    }
  }

  /** Bit by bit, what is to be set is, what is only to be cleared is, and the rest is as it was. */
  lemma SwitchedAt(w: nat, off: nat, on: nat, i: nat)
    ensures Bit(Switched(w, off, on), i) == if Bit(on, i) == 1 then 1 else if Bit(off, i) == 1 then 0 else Bit(w, i)
  {
    BitOfAndNot(w, off, i);
    BitOfOr(AndNot(w, off), on, i);
  }

  lemma PowersOfWord()
    ensures Pow2(16) == STEP && Pow2(32) == TWO_TO_32
  {
    assert Pow2(4) == 16;
    assert Pow2(8) == 256;
    assert Pow2(12) == 4096;
    assert Pow2(16) == 65536;
    Pow2Adds(16, 16);
  }

  /** Clearing, setting and replacing flags leaves the count as it is. */
  lemma FlagsLeaveTheCount(w: nat, off: nat, on: nat)
    requires Word(w) && off < STEP && on < STEP
    ensures Word(Switched(w, off, on)) && SeqOf(Switched(w, off, on)) == SeqOf(w)
  {
    PowersOfWord();
    AboveIsLeft(w, off, 16);
    AboveIsLeft(AndNot(w, off), on, 16);
    AboveIsLeft(w, off, 32);
    AboveIsLeft(AndNot(w, off), on, 32);
  }

  /** Counting leaves the flags as they are, and steps the count. */
  lemma CountLeavesTheFlags(w: nat)
    requires Word(w)
    ensures Word(Counted(w)) && FlagsOf(Counted(w)) == FlagsOf(w)
    ensures Counted(w) / STEP == (w / STEP + 1) % SEQ_RANGE
  {
  }

  // ---- Readers, one writer at a time, and flags that change meanwhile.

  /** SetAttachment's steps; the value it stores is numbered by the call. */
  datatype Writer = Idle | Marked(v: nat) | TypeStored(v: nat) | DataStored(v: nat)

  /** Attachment's steps. `from` is the number of counts there had been when it first loaded the word. */
  datatype Reader = Loaded(seqNo: nat, from: nat) | GotType(seqNo: nat, from: nat, typ: nat)
                  | GotData(seqNo: nat, from: nat, typ: nat, data: nat) | Returned(from: nat, to: nat, typ: nat, data: nat)

  /** `counts` is how often the sequence count was stepped, of which the word keeps 16 bits. */
  datatype State = State(
    bits: nat, typ: nat, data: nat, writer: Writer, readers: map<nat, Reader>, counts: nat)

  /** `Flags` clears some and sets some in one atomic operation. */
  datatype Action = Begin | StoreType | StoreData | End | Flags(off: nat, on: nat)
                  | Load(id: nat) | LoadType(id: nat) | LoadData(id: nat) | Recheck(id: nat)

  predicate Init(s: State) { s.bits < STEP && s == State(s.bits, 0, 0, Idle, map[], 0) }

  predicate Enabled(s: State, a: Action) {
    match a
    case Begin => s.writer.Idle?
    case StoreType => s.writer.Marked?
    case StoreData => s.writer.TypeStored?
    case End => s.writer.DataStored?
    case Flags(off, on) => off < STEP && on < STEP
    case Load(id) => id !in s.readers
    case LoadType(id) => id in s.readers && s.readers[id].Loaded?
    case LoadData(id) => id in s.readers && s.readers[id].GotType?
    case Recheck(id) => id in s.readers && s.readers[id].GotData?
  }

  function Count(s: State): State { s.(bits := Counted(s.bits), counts := s.counts + 1) }

  function Apply(s: State, a: Action): State
    requires Enabled(s, a)
  {
    match a
    case Begin => Count(s).(writer := Marked(s.counts / 2 + 1))
    case StoreType => s.(typ := s.writer.v, writer := TypeStored(s.writer.v))
    case StoreData => s.(data := s.writer.v, writer := DataStored(s.writer.v))
    case End => Count(s).(writer := Idle)
    case Flags(off, on) => s.(bits := Switched(s.bits, off, on))
    case Load(id) =>
      // An odd count is a write in progress, and the reader tries again.
      if s.bits / STEP % 2 == 1 then s else s.(readers := s.readers[id := Loaded(SeqOf(s.bits), s.counts)])
    case LoadType(id) =>
      var r := s.readers[id];
      s.(readers := s.readers[id := GotType(r.seqNo, r.from, s.typ)])
    case LoadData(id) =>
      var r := s.readers[id];
      s.(readers := s.readers[id := GotData(r.seqNo, r.from, r.typ, s.data)])
    case Recheck(id) =>
      var r := s.readers[id];
      s.(readers := if SeqOf(s.bits) == r.seqNo then s.readers[id := Returned(r.from, s.counts, r.typ, r.data)]
                    else s.readers - {id})
  }

  function After(s: State, run: seq<Action>): State {
    if run == [] then s
    else
      var before := After(s, run[..|run| - 1]);
      var a := run[|run| - 1];
      if Enabled(before, a) then Apply(before, a) else before
  }

  // ---- What every step keeps.

  predicate WordOk(s: State) {
    && Word(s.bits) && s.bits / STEP == s.counts % SEQ_RANGE
    && (s.writer.Idle? <==> s.counts % 2 == 0)
    && (s.writer.Idle? ==> s.typ == s.data == s.counts / 2)
    && (!s.writer.Idle? ==> s.writer.v == s.counts / 2 + 1)
    && (s.writer.TypeStored? ==> s.typ == s.writer.v)
    && (s.writer.DataStored? ==> s.typ == s.data == s.writer.v)
  }

  /** While no count has been stepped since it began, a reader has seen what is there. */
  predicate ReaderOk(s: State, r: Reader) {
    match r
    case Loaded(n, from) => from <= s.counts && from % 2 == 0 && n == from % SEQ_RANGE * STEP
    case GotType(n, from, typ) =>
      from <= s.counts && from % 2 == 0 && n == from % SEQ_RANGE * STEP && (from == s.counts ==> typ == s.typ)
    case GotData(n, from, typ, data) =>
      && from <= s.counts && from % 2 == 0 && n == from % SEQ_RANGE * STEP
      && (from == s.counts ==> typ == s.typ && data == s.data)
    case Returned(from, to, typ, data) =>
      from <= to && from % 2 == 0 && (to - from) % SEQ_RANGE == 0 && (from == to ==> typ == data == from / 2)
  }

  predicate Inv(s: State) { WordOk(s) && forall id :: id in s.readers ==> ReaderOk(s, s.readers[id]) }

  lemma StepKeeps(s: State, a: Action)
    requires Inv(s) && Enabled(s, a)
    ensures Inv(Apply(s, a))
  {
    WordKeeps(s, a);
    var t := Apply(s, a);
    forall id | id in t.readers
      ensures ReaderOk(t, t.readers[id])
    {
      ReaderKeeps(s, a, id);
    }
  }

  lemma WordKeeps(s: State, a: Action)
    requires WordOk(s) && Enabled(s, a)
    ensures WordOk(Apply(s, a))
  {
    CountLeavesTheFlags(s.bits);
    if a.Flags? {
      FlagsLeaveTheCount(s.bits, a.off, a.on);
    }
  }

  lemma ReaderKeeps(s: State, a: Action, id: nat)
    requires Inv(s) && Enabled(s, a) && id in Apply(s, a).readers
    ensures ReaderOk(Apply(s, a), Apply(s, a).readers[id])
  {
    if a.Recheck? && a.id == id {
      RecheckKeeps(s, id);
    } else if (a.Load? || a.LoadType? || a.LoadData?) && a.id == id {
      LoadKeeps(s, a);
    } else {
      OthersKeep(s, a, s.readers[id]);
    }
  }

  lemma RecheckKeeps(s: State, id: nat)
    requires Inv(s) && Enabled(s, Recheck(id)) && id in Apply(s, Recheck(id)).readers
    ensures ReaderOk(Apply(s, Recheck(id)), Apply(s, Recheck(id)).readers[id])
  {
    assert ReaderOk(s, s.readers[id]);
    SameCount(s.readers[id].from, s.counts, s.bits);
  }

  lemma LoadKeeps(s: State, a: Action)
    requires Inv(s) && (a.Load? || a.LoadType? || a.LoadData?) && Enabled(s, a) && a.id in Apply(s, a).readers
    ensures ReaderOk(Apply(s, a), Apply(s, a).readers[a.id])
  {
    if a.Load? {
      EvenCount(s.counts, s.bits);
    } else {
      assert ReaderOk(s, s.readers[a.id]);
    }
  }

  lemma EvenCount(counts: nat, bits: nat)
    requires bits / STEP == counts % SEQ_RANGE
    ensures SeqOf(bits) == counts % SEQ_RANGE * STEP && (bits / STEP % 2 == 1 || counts % 2 == 0)
  {
  }

  /** Any other step leaves a reader with what it saw, and the words as they are while no count is stepped. */
  lemma OthersKeep(s: State, a: Action, r: Reader)
    requires WordOk(s) && ReaderOk(s, r) && Enabled(s, a)
    ensures ReaderOk(Apply(s, a), r)
  {
  }

  /** The count read again is the one kept exactly if the steps since are a multiple of 2^16. */
  lemma SameCount(from: nat, counts: nat, bits: nat)
    requires from <= counts && bits / STEP == counts % SEQ_RANGE
    ensures SeqOf(bits) == from % SEQ_RANGE * STEP <==> (counts - from) % SEQ_RANGE == 0
  {
  }

  /** Only what sets and clears flags changes them, whatever else goes on in their word. */
  lemma OthersLeaveTheFlags(s: State, a: Action)
    requires Word(s.bits) && Enabled(s, a) && !a.Flags?
    ensures FlagsOf(Apply(s, a).bits) == FlagsOf(s.bits)
  {
    CountLeavesTheFlags(s.bits);
  }

  lemma {:induction false} RunKeeps(s: State, run: seq<Action>)
    requires Init(s)
    ensures Inv(After(s, run))
  {
    if run != [] {
      RunKeeps(s, run[..|run| - 1]);
      var before, a := After(s, run[..|run| - 1]), run[|run| - 1];
      if Enabled(before, a) {
        StepKeeps(before, a);
      }
    }
  }

  /** A read during which fewer than 2^15 SetAttachments complete has none complete during it, and returns what the last one
      before it stored. */
  lemma ReadIsWhole(s: State, run: seq<Action>, id: nat)
    requires Init(s) && id in After(s, run).readers && After(s, run).readers[id].Returned?
    requires var r := After(s, run).readers[id]; r.to - r.from < 2 * 32768
    ensures var r := After(s, run).readers[id]; r.typ == r.data == r.from / 2 && r.to == r.from
  {
    RunKeeps(s, run);
  }

  // ---- With 2^15 it need not.

  lemma Extend(s: State, run: seq<Action>, a: Action)
    requires Enabled(After(s, run), a)
    ensures After(s, run + [a]) == Apply(After(s, run), a)
  {
    assert (run + [a])[..|run|] == run;
  }

  /** `k` whole SetAttachments, one after another. */
  lemma {:induction false} Writes(s: State, run: seq<Action>, k: nat) returns (after: seq<Action>)
    requires Init(s) && After(s, run).writer.Idle?
    ensures var b, c := After(s, run), After(s, after);
            c.writer.Idle? && c.counts == b.counts + 2 * k && c.readers == b.readers
            && (k > 0 ==> c.typ == c.data == c.counts / 2)
  {
    if k == 0 {
      return run;
    }
    after := Writes(s, run, k - 1);
    RunKeeps(s, after);
    Extend(s, after, Begin);
    after := after + [Begin];
    Extend(s, after, StoreType);
    after := after + [StoreType];
    Extend(s, after, StoreData);
    after := after + [StoreData];
    Extend(s, after, End);
    after := after + [End];
  }

  /** A read that 2^15 of them complete during can return the type of one and the data of another. */
  lemma ReadCanTear(s: State) returns (run: seq<Action>)
    requires Init(s)
    ensures 0 in After(s, run).readers && After(s, run).readers[0].Returned?
    ensures var r := After(s, run).readers[0]; r.to - r.from == 2 * 32768 && r.typ != r.data
  {
    run := [];
    Extend(s, run, Load(0));
    run := run + [Load(0)];
    Extend(s, run, LoadType(0));
    run := run + [LoadType(0)];
    run := Writes(s, run, 32768);
    RunKeeps(s, run);
    Extend(s, run, LoadData(0));
    run := run + [LoadData(0)];
    Extend(s, run, Recheck(0));
    run := run + [Recheck(0)];
  }
}
