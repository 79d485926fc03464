/** arpc's combining writer: goroutines that find another writing append to what it
    sends next. The two buffers it swaps are slices of arrays in a heap, read a byte
    at a time while others append. */
module Writer {
  import opened Basics

  /** A slice: the array it is in, and its length; a nil slice has none. */
  datatype Slice = Nil | Slice(arr: nat, len: nat)

  /** `First` sends the writer's own message, `Batch` what others appended. */
  datatype Pc = First(msg: seq<Byte>, i: nat) | Look | Batch(b: Slice, i: nat)

  /** The heap maps an array to its contents, as many as its capacity. `wire` is what
      reached the connection, `order` the messages in the order the lock was taken. */
  datatype State = State(
    heap: map<nat, seq<Byte>>,
    out: Slice,
    spare: Slice,
    writing: bool,
    writers: map<nat, Pc>,
    wire: seq<Byte>,
    order: seq<seq<Byte>>)

  /** A new array's name and the room it has beyond what is appended. */
  datatype Fresh = Fresh(arr: nat, more: nat)

  datatype Action =
    | Enter(id: nat, first: seq<Byte>, second: seq<Byte>, f: Fresh, g: Fresh)
    | SendByte(id: nat)
    | EndFirst(id: nat)
    | Swap(id: nat)
    | EndBatch(id: nat)

  const MAX_SPARE := 65536

  predicate Init(s: State) { s == State(map[], Nil, Nil, false, map[], [], []) }

  // ---- Slices.

  predicate Fits(heap: map<nat, seq<Byte>>, s: Slice) { s.Slice? ==> s.arr in heap && s.len <= |heap[s.arr]| }

  function Contents(heap: map<nat, seq<Byte>>, s: Slice): seq<Byte>
    requires Fits(heap, s)
  {
    if s.Nil? then [] else heap[s.arr][..s.len]
  }

  function Zeros(n: nat): (r: seq<Byte>)
    ensures |r| == n
  {
    seq(n, _ => 0)
  }

  /** append: in place where there is room, and into a new array otherwise. */
  function Append(heap: map<nat, seq<Byte>>, s: Slice, b: seq<Byte>, f: Fresh): (r: (map<nat, seq<Byte>>, Slice))
    requires Fits(heap, s)
  {
    if b == [] then (heap, s)
    else if s.Slice? && s.len + |b| <= |heap[s.arr]| then
      (heap[s.arr := heap[s.arr][..s.len] + b + heap[s.arr][s.len + |b|..]], Slice(s.arr, s.len + |b|))
    else
      var all := Contents(heap, s) + b;
      (heap[f.arr := all + Zeros(f.more)], Slice(f.arr, |all|))
  }

  /** Append adds to the slice, and touches no array but its own or the new one. */
  lemma AppendAdds(heap: map<nat, seq<Byte>>, s: Slice, b: seq<Byte>, f: Fresh)
    requires Fits(heap, s) && f.arr !in heap
    ensures var (h, t) := Append(heap, s, b, f);
            && Fits(h, t) && Contents(h, t) == Contents(heap, s) + b
            && (forall a :: a in heap && !(s.Slice? && a == s.arr) ==> a in h && h[a] == heap[a])
            && (t == s || t == Slice(f.arr, Len(s) + |b|) || (s.Slice? && t == Slice(s.arr, s.len + |b|)))
            && (forall a :: a in heap ==> a in h && |h[a]| == |heap[a]|)
            && (forall a :: a in h ==> a in heap || a == f.arr)
  {
    var (h, t) := Append(heap, s, b, f);
    assert Contents(h, t) == Contents(heap, s) + b;
  }

  function Len(s: Slice): nat { if s.Nil? then 0 else s.len }

  // ---- The steps.

  predicate HasByte(heap: map<nat, seq<Byte>>, pc: Pc) {
    match pc
    case First(msg, i) => i < |msg|
    case Batch(b, i) => b.Slice? && Fits(heap, b) && i < b.len
    case Look => false
  }

  predicate Enabled(s: State, a: Action) {
    match a
    case Enter(id, first, second, f, g) =>
      id !in s.writers && f.arr !in s.heap && g.arr !in s.heap && f.arr != g.arr && Fits(s.heap, s.out)
    case SendByte(id) => id in s.writers && HasByte(s.heap, s.writers[id])
    case EndFirst(id) => id in s.writers && s.writers[id].First? && s.writers[id].i == |s.writers[id].msg|
    case Swap(id) => id in s.writers && s.writers[id].Look?
    case EndBatch(id) =>
      && id in s.writers && s.writers[id].Batch? && s.writers[id].b.Slice?
      && s.writers[id].i == s.writers[id].b.len && s.writers[id].b.arr in s.heap
  }

  function Appended(s: State, first: seq<Byte>, second: seq<Byte>, f: Fresh, g: Fresh): State
    requires Fits(s.heap, s.out) && f.arr !in s.heap && g.arr !in s.heap && f.arr != g.arr
  {
    AppendAdds(s.heap, s.out, first, f);
    var (h, o) := Append(s.heap, s.out, first, f);
    var (heap, out) := Append(h, o, second, g);
    s.(heap := heap, out := out)
  }

  function SetPc(s: State, id: nat, pc: Pc): State { s.(writers := s.writers[id := pc]) }

  function Apply(s: State, a: Action): State
    requires Enabled(s, a)
  {
    match a
    case Enter(id, first, second, f, g) =>
      var t := s.(order := s.order + [first + second]);
      if s.writing then Appended(t, first, second, f, g)
      else SetPc(t, id, First(first + second, 0)).(writing := true)
    case SendByte(id) =>
      var pc := s.writers[id];
      var next := if pc.First? then pc.msg[pc.i] else s.heap[pc.b.arr][pc.i];
      SetPc(s, id, pc.(i := pc.i + 1)).(wire := s.wire + [next])
    case EndFirst(id) => SetPc(s, id, Look)
    case Swap(id) =>
      if Len(s.out) == 0 then s.(writing := false, writers := s.writers - {id})
      else SetPc(s, id, Batch(s.out, 0)).(out := if s.spare.Nil? then Nil else Slice(s.spare.arr, 0))
    case EndBatch(id) =>
      var b := s.writers[id].b;
      SetPc(s, id, Look).(spare := if |s.heap[b.arr]| > MAX_SPARE then Nil else b)
  }

  function After(s: State, run: seq<Action>): State {
    if run == [] then s
    else
      var before := After(s, run[..|run| - 1]);
      var a := run[|run| - 1];
      if Enabled(before, a) then Apply(before, a) else before
  }

  // ---- What every step keeps.

  /** What the one writer has still to send before it looks again. */
  function InHand(heap: map<nat, seq<Byte>>, pc: Pc): seq<Byte>
    requires PcOk(heap, pc)
  {
    match pc
    case First(msg, i) => msg[i..]
    case Look => []
    case Batch(b, i) => Contents(heap, b)[i..]
  }

  predicate PcOk(heap: map<nat, seq<Byte>>, pc: Pc) {
    match pc
    case First(msg, i) => i <= |msg|
    case Look => true
    case Batch(b, i) => b.Slice? && Fits(heap, b) && i <= b.len
  }

  /** Slices in different arrays, or none in one. */
  predicate Apart(a: Slice, b: Slice) { a.Nil? || b.Nil? || a.arr != b.arr }

  /** One goroutine writes at a time, and while none does nothing waits to be sent. */
  ghost predicate OneWriter(s: State) {
    && (s.writing <==> s.writers != map[])
    && (forall a, b :: a in s.writers && b in s.writers ==> a == b)
    && (Len(s.out) > 0 ==> s.writing)
  }

  /** What is being sent, or is spare, is in another array than what is appended to. */
  ghost predicate Separate(s: State) {
    && Fits(s.heap, s.out) && Fits(s.heap, s.spare)
    && (forall id :: id in s.writers ==>
          PcOk(s.heap, s.writers[id]) && (s.writers[id].Batch? ==> Apart(s.writers[id].b, s.out)))
    && ((forall id :: id in s.writers ==> !s.writers[id].Batch?) ==> Apart(s.out, s.spare))
    && (forall id :: id in s.writers && s.writers[id].Batch? ==> Apart(s.writers[id].b, s.spare))
  }

  /** What was sent, is being sent and waits is the messages in the order the lock was taken. */
  ghost predicate Streams(s: State)
    requires Separate(s)
  {
    && (s.writers == map[] ==> s.wire + Contents(s.heap, s.out) == Concat(s.order))
    && (forall id :: id in s.writers ==>
          s.wire + InHand(s.heap, s.writers[id]) + Contents(s.heap, s.out) == Concat(s.order))
  }

  ghost predicate Inv(s: State) { OneWriter(s) && Separate(s) && Streams(s) }

  /** Two appends, one after the other. */
  lemma AppendedAdds(s: State, first: seq<Byte>, second: seq<Byte>, f: Fresh, g: Fresh)
    requires Fits(s.heap, s.out) && f.arr !in s.heap && g.arr !in s.heap && f.arr != g.arr
    ensures var t := Appended(s, first, second, f, g);
            && Fits(t.heap, t.out) && Contents(t.heap, t.out) == Contents(s.heap, s.out) + (first + second)
            && (forall a :: a in s.heap ==> a in t.heap && |t.heap[a]| == |s.heap[a]|)
            && (forall a :: a in s.heap && !(s.out.Slice? && a == s.out.arr) ==> t.heap[a] == s.heap[a])
            && (t.out.Slice? ==> (s.out.Slice? && t.out.arr == s.out.arr) || t.out.arr !in s.heap)
            && Len(t.out) == Len(s.out) + |first| + |second|
  {
    AppendAdds(s.heap, s.out, first, f);
    var (h, o) := Append(s.heap, s.out, first, f);
    AppendAdds(h, o, second, g);
    assert Contents(s.heap, s.out) + first + second == Contents(s.heap, s.out) + (first + second);
  }

  lemma AppendKeeps(s: State, a: Action)
    requires Inv(s) && Enabled(s, a) && a.Enter? && s.writing
    ensures Inv(Apply(s, a))
  {
    var m := a.first + a.second;
    var t := Apply(s, a);
    AppendedAdds(s.(order := s.order + [m]), a.first, a.second, a.f, a.g);
    ConcatMore(s.order, m);
    forall id | id in t.writers
      ensures PcOk(t.heap, t.writers[id]) && InHand(t.heap, t.writers[id]) == InHand(s.heap, s.writers[id])
    {
      assert PcOk(s.heap, s.writers[id]);
    }
    assert Separate(t);
    forall id | id in t.writers
      ensures t.wire + InHand(t.heap, t.writers[id]) + Contents(t.heap, t.out) == Concat(t.order)
    {
      Regroup(s.wire + InHand(s.heap, s.writers[id]), Contents(s.heap, s.out), m);
    }
  }

  lemma Alone(wire: seq<Byte>, out: seq<Byte>, m: seq<Byte>, sent: seq<Byte>)
    requires out == [] && wire + out == sent
    ensures wire + m[0..] + out == sent + m
  {
  }

  lemma StartKeeps(s: State, a: Action)
    requires Inv(s) && Enabled(s, a) && a.Enter? && !s.writing
    ensures Inv(Apply(s, a))
  {
    var m, t := a.first + a.second, Apply(s, a);
    ConcatMore(s.order, m);
    assert t.writers == map[a.id := First(m, 0)];
    Alone(s.wire, Contents(s.heap, s.out), m, Concat(s.order));
  }

  lemma SendKeeps(s: State, id: nat)
    requires Inv(s) && Enabled(s, SendByte(id))
    ensures Inv(Apply(s, SendByte(id)))
  {
    var t := Apply(s, SendByte(id));
    var pc := s.writers[id];
    var hand := InHand(s.heap, pc);
    assert InHand(t.heap, t.writers[id]) == hand[1..];
    assert [hand[0]] == hand[..1];
    Rejoin(s.wire, hand, 1);
  }

  lemma TurnKeeps(s: State, a: Action)
    requires Inv(s) && Enabled(s, a) && (a.EndFirst? || a.EndBatch?)
    ensures Inv(Apply(s, a))
  {
    assert InHand(s.heap, s.writers[a.id]) == [];
  }

  lemma SwapKeeps(s: State, id: nat)
    requires Inv(s) && Enabled(s, Swap(id))
    ensures Inv(Apply(s, Swap(id)))
  {
    var t := Apply(s, Swap(id));
    var c := Contents(s.heap, s.out);
    assert s.wire + [] == s.wire;
    if Len(s.out) == 0 {
      assert t.writers == map[];
    } else {
      assert c[0..] == c && Contents(t.heap, t.out) == [];
    }
  }

  lemma {:induction false} RunKeeps(s: State, run: seq<Action>)
    requires Init(s)
    ensures Inv(After(s, run))
  {
    if run != [] {
      RunKeeps(s, run[..|run| - 1]);
      var before, a := After(s, run[..|run| - 1]), run[|run| - 1];
      if Enabled(before, a) {
        match a {
          case Enter(_, _, _, _, _) => if before.writing { AppendKeeps(before, a); } else { StartKeeps(before, a); }
          case SendByte(id) => SendKeeps(before, id);
          case Swap(id) => SwapKeeps(before, id);
          case _ => TurnKeeps(before, a);
        }
      }
    } else {
      assert Concat(s.order) == [];
    }
  }

  /** In every run: one goroutine sends at a time, what waits has one to send it, the batch it sends
      is in another array than what is appended to, and the connection has got the messages whole,
      once each and in the order the lock was taken: all of them once nobody is writing. */
  lemma WritesAreInOrder(s: State, run: seq<Action>)
    requires Init(s)
    ensures var t := After(s, run);
            && (forall a, b :: a in t.writers && b in t.writers ==> a == b)
            && (Len(t.out) > 0 ==> t.writing && t.writers != map[])
            && (forall id :: id in t.writers && t.writers[id].Batch? ==> Apart(t.writers[id].b, t.out))
            && t.wire <= Concat(t.order)
            && (!t.writing ==> t.wire == Concat(t.order))
  {
    RunKeeps(s, run);
    var t := After(s, run);
    if t.writing {
      var id :| id in t.writers;
      assert t.wire + InHand(t.heap, t.writers[id]) + Contents(t.heap, t.out) == Concat(t.order);
    } else {
      assert t.wire + [] == t.wire;
    }
  }

  /** The messages of the writers that entered in a run, in the order they did. */
  function Entered(s: State, run: seq<Action>): seq<seq<Byte>> {
    if run == [] then [] else
    var init, a := run[..|run| - 1], run[|run| - 1];
    Entered(s, init) + if a.Enter? && Enabled(After(s, init), a) then [a.first + a.second] else []
  }

  lemma StepOrders(s: State, a: Action)
    requires Enabled(s, a)
    ensures Apply(s, a).order == s.order + if a.Enter? then [a.first + a.second] else []
  {
    assert s.order + [] == s.order;
  }

  lemma {:induction false} OrderIsEntered(s: State, run: seq<Action>)
    requires Init(s)
    ensures After(s, run).order == Entered(s, run)
  {
    if run != [] {
      var before, a := After(s, run[..|run| - 1]), run[|run| - 1];
      OrderIsEntered(s, run[..|run| - 1]);
      if Enabled(before, a) {
        StepOrders(before, a);
      } else {
        assert before.order + [] == before.order;
      }
    }
  }

  /** In every run what has reached the connection is a prefix of the messages entered, in the order they were, and all of
      them once nobody is writing. */
  lemma EnteredIsWritten(s: State, run: seq<Action>)
    requires Init(s)
    ensures After(s, run).wire <= Concat(Entered(s, run))
    ensures !After(s, run).writing ==> After(s, run).wire == Concat(Entered(s, run))
  {
    OrderIsEntered(s, run);
    WritesAreInOrder(s, run);
  }
}
