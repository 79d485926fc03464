/** The buffer pool: its size classes, and the reserve behind each that a collection
    cannot take, within a budget they share. */
module BufferPool {
  import opened Basics
  import opened Powers

  const MIN_SHIFT := 6
  const MIN_SIZE := 64
  const MAX_SIZE := 67108864
  const NUM_CLASSES := 21
  const DEFAULT_RETAINED_BYTES := 33554432

  // ---- Size classes.

  /** bits.Len. */
  function BitLen(n: nat): nat { if n == 0 then 0 else Log2(n) + 1 }

  /** The capacity a buffer of `size` bytes is given. */
  function Align(size: int): (r: nat)
    ensures r >= size
  {
    if size <= MIN_SIZE then (if size <= 0 then 0 else MIN_SIZE)
    else if size > MAX_SIZE then size
    else LenRoundsUp(size, 1); Pow2(BitLen(size - 1))
  }

  function ClassUp(size: int): int { if size <= MIN_SIZE then 0 else BitLen(size - 1) - MIN_SHIFT }

  function ClassDown(capacity: nat): int { BitLen(capacity) - 1 - MIN_SHIFT }

  function ClassSize(i: nat): (r: nat)
    ensures r > 0
  {
    MIN_SIZE * Pow2(i)
  }

  lemma Shifts()
    ensures Pow2(6) == 64 && Pow2(26) == 67108864
  {
    assert Pow2(3) == 8;
    assert Pow2(13) == 8192 by {
      Pow2Adds(10, 3);
      Pow2Adds(5, 5);
    }
    Pow2Adds(13, 13);
  }

  lemma ClassSizeIsPow2(i: nat)
    ensures ClassSize(i) == Pow2(i + MIN_SHIFT)
  {
    Shifts();
    Pow2Adds(i, MIN_SHIFT);
  }

  /** `2^k` is the least power of two that is at least `n`, where `k` is the length of `n - 1`. */
  lemma LenRoundsUp(n: nat, q: nat)
    requires n > 1
    ensures n <= Pow2(BitLen(n - 1)) && (q > 0 && PowerOfTwo(q) && q >= n ==> Pow2(BitLen(n - 1)) <= q)
  {
    LogBounds(n - 1);
    if q > 0 && PowerOfTwo(q) && q >= n {
      PowerIsPow2(q);
      RoundsUp(n - 1, Log2(q));
    }
  }

  lemma RoundsUp(n: nat, k: nat)
    requires 0 < n < Pow2(k)
    ensures Log2(n) < k && Pow2(Log2(n) + 1) <= Pow2(k)
  {
    LogBounds(n);
    Below(Log2(n), k);
    Pow2Grows(Log2(n) + 1, k);
  }

  lemma Below(j: nat, k: nat)
    requires Pow2(j) < Pow2(k)
    ensures j < k
  {
    if k <= j {
      Pow2Grows(k, j);
    }
  }

  /** Align gives the least power of two that fits, and is at least 64. */
  lemma AlignIsLeast(size: int, q: nat)
    requires 0 < size <= MAX_SIZE
    ensures Align(size) >= size && Align(size) >= MIN_SIZE && PowerOfTwo(Align(size)) && Align(size) <= MAX_SIZE
    ensures q >= MIN_SIZE && PowerOfTwo(q) && q >= size ==> Align(size) <= q
  {
    Shifts();
    Pow2IsPower(6);
    Pow2IsPower(26);
    if size > MIN_SIZE {
      LenRoundsUp(size, q);
      LenRoundsUp(size, MAX_SIZE);
      Pow2IsPower(BitLen(size - 1));
    }
  }

  /** A request's class has exactly its aligned size, and a buffer of that capacity goes back to it. */
  lemma ClassesAgree(size: int)
    requires 0 < size <= MAX_SIZE
    ensures 0 <= ClassUp(size) < NUM_CLASSES && ClassSize(ClassUp(size)) == Align(size)
    ensures ClassDown(Align(size)) == ClassUp(size)
  {
    MinIsSix();
    if size > MIN_SIZE {
      LenInRange(size);
      var k := BitLen(size - 1);
      Pow2IsPower(k);
      ClassSizeIsPow2(k - MIN_SHIFT);
    }
  }

  lemma MinIsSix()
    ensures Log2(MIN_SIZE) == MIN_SHIFT && Pow2(0) == 1 && Log2(MAX_SIZE) == 26
  {
    Shifts();
    Pow2IsPower(6);
    Pow2IsPower(26);
  }

  lemma LenInRange(size: nat)
    requires MIN_SIZE < size <= MAX_SIZE
    ensures MIN_SHIFT < BitLen(size - 1) <= 26
  {
    MinIsSix();
    LogGrows(MIN_SIZE, size - 1);
    LogGrows(size - 1, MAX_SIZE);
    Shifts();
    RoundsUp(size - 1, 26);
  }

  /** A buffer is filed in the largest class it can serve. */
  lemma ClassDownFits(capacity: nat)
    requires MIN_SIZE <= capacity <= MAX_SIZE
    ensures 0 <= ClassDown(capacity) < NUM_CLASSES
    ensures ClassSize(ClassDown(capacity)) <= capacity < 2 * ClassSize(ClassDown(capacity))
  {
    Shifts();
    Pow2IsPower(6);
    Pow2IsPower(26);
    LogGrows(MIN_SIZE, capacity);
    LogGrows(capacity, MAX_SIZE);
    LogBounds(capacity);
    ClassSizeIsPow2(ClassDown(capacity));
  }

  // ---- The reserves.

  /** What the classes may hold, in bytes, if each keeps as many buffers as `target` says. */
  function Cost(target: seq<nat>): nat {
    if target == [] then 0 else Cost(target[..|target| - 1]) + target[|target| - 1] * ClassSize(|target| - 1)
  }

  lemma {:induction false} CostUpdate(target: seq<nat>, i: nat, v: nat)
    requires i < |target|
    ensures Cost(target[i := v]) == Cost(target) + (v - target[i]) * ClassSize(i)
  {
    var last := |target| - 1;
    if i == last {
      assert target[i := v][..last] == target[..last];
    } else {
      CostUpdate(target[..last], i, v);
      assert target[i := v][..last] == target[..last][i := v];
    }
  }

  lemma CostMore(target: seq<nat>, i: nat)
    requires i < |target|
    ensures Cost(target[i := target[i] + 1]) == Cost(target) + ClassSize(i)
  {
    CostUpdate(target, i, target[i] + 1);
    calc {
      (target[i] + 1 - target[i]) * ClassSize(i);
      1 * ClassSize(i);
      ClassSize(i);
    }
  }

  lemma CostLess(target: seq<nat>, i: nat)
    requires i < |target| && target[i] > 0
    ensures Cost(target[i := target[i] - 1]) == Cost(target) - ClassSize(i)
  {
    var less := target[i := target[i] - 1];
    CostMore(less, i);
    assert less[i := less[i] + 1] == target;
  }

  lemma {:induction false} CostNone(target: seq<nat>)
    requires forall i :: 0 <= i < |target| ==> target[i] == 0
    ensures Cost(target) == 0
  {
    if target != [] {
      CostNone(target[..|target| - 1]);
    }
  }

  function Zeros(n: nat): (r: seq<nat>)
    ensures |r| == n && forall i :: 0 <= i < n ==> r[i] == 0
  {
    seq(n, _ => 0)
  }

  function OneLess(n: nat): nat { if n > 0 then n - 1 else 0 }

  /** The targets with one more for class `i`, if the budget has room for it. */
  function Raised(target: seq<nat>, i: nat, committed: int, budget: nat): seq<nat>
    requires i < |target|
  {
    if committed + ClassSize(i) > budget then target else target[i := target[i] + 1]
  }

  /** A buffer with bytes in it, and the capacity of its array. */
  datatype Slice = Slice(bytes: seq<Byte>, cap: nat)

  predicate Fits(buf: Slice) { |buf.bytes| <= buf.cap }

  /** The classes and the counters over them. `held` is how many buffers a class's reserve has, `spare` how many the
      traffic has left for the next collection to take. */
  class Pool {
    var target: seq<nat>
    var held: seq<nat>
    var spare: seq<nat>
    var refill: seq<nat>
    var epoch: seq<nat>
    var gcEpoch: nat
    var budget: nat
    var committed: int

    /** The targets are what is committed, within the budget, and no reserve holds more than its target. */
    ghost predicate Valid()
      reads this
    {
      && |target| == |held| == |spare| == |refill| == |epoch| == NUM_CLASSES
      && committed == Cost(target) && committed <= budget
      && forall i :: 0 <= i < NUM_CLASSES ==> held[i] <= target[i]
    }

    constructor ()
      ensures Valid() && budget == DEFAULT_RETAINED_BYTES && committed == 0
    {
      target, held, spare := Zeros(NUM_CLASSES), Zeros(NUM_CLASSES), Zeros(NUM_CLASSES);
      refill, epoch, gcEpoch := Zeros(NUM_CLASSES), Zeros(NUM_CLASSES), 0;
      budget, committed := DEFAULT_RETAINED_BYTES, 0;
      new;
      CostNone(target);
    }

    /** A request had to be served by making a buffer: one more is kept, if the budget has room. */
    method ReserveMore(i: nat)
      requires Valid() && i < NUM_CLASSES
      modifies `target, `committed
      ensures Valid() && target == Raised(old(target), i, old(committed), budget)
      ensures old(committed) + ClassSize(i) <= budget ==>
                target == old(target)[i := old(target)[i] + 1] && committed == old(committed) + ClassSize(i)
      ensures old(committed) + ClassSize(i) > budget ==> target == old(target) && committed == old(committed)
    {
      committed := committed + ClassSize(i);
      if committed > budget {
        committed := committed - ClassSize(i);
        return;
      }
      CostMore(target, i);
      target := target[i := target[i] + 1];
    }

    /** trim, for one class: its target comes down while there is too much committed, and its reserve with it. */
    method TrimClass(i: nat)
      requires i < |target| == |held| && committed == Cost(target)
      modifies `target, `held, `committed
      ensures |target| == |old(target)| && |held| == |old(held)| && committed == Cost(target)
      ensures target == old(target)[i := target[i]] && held == old(held)[i := held[i]]
      ensures target[i] <= old(target)[i] && held[i] <= target[i] && (held[i] == old(held)[i] || held[i] == target[i])
      ensures committed > budget ==> target[i] == 0
      ensures old(committed) <= budget ==> target == old(target)
    {
      while committed > budget && target[i] > 0
        invariant |target| == |old(target)| && target == old(target)[i := target[i]] && committed == Cost(target)
        invariant target[i] <= old(target)[i] && held == old(held)
        invariant old(committed) <= budget ==> target == old(target)
        decreases target[i]
      {
        CostLess(target, i);
        target := target[i := target[i] - 1];
        committed := committed - ClassSize(i);
      }
      if held[i] <= target[i] {
        return;
      }
      held := held[i := target[i]];
    }

    /** trim: the largest class first, until what is committed is within the budget. */
    method Trim()
      requires |target| == |held| == |spare| == |refill| == |epoch| == NUM_CLASSES && committed == Cost(target)
      modifies `target, `held, `committed
      ensures Valid() && forall i :: 0 <= i < NUM_CLASSES ==> target[i] <= old(target)[i]
    {
      for i := NUM_CLASSES downto 0
        invariant |target| == |held| == NUM_CLASSES && committed == Cost(target)
        invariant forall j :: 0 <= j < NUM_CLASSES ==> target[j] <= old(target)[j]
        invariant forall j :: i <= j < NUM_CLASSES ==> held[j] <= target[j] && (committed > budget ==> target[j] == 0)
      {
        TrimClass(i);
      }
      if committed > budget {
        CostNone(target);
      }
    }

    method SetRetainedBytes(bytes: int)
      requires Valid()
      modifies `budget, `target, `held, `committed
      ensures Valid() && budget == if bytes < 0 then 0 else bytes
      ensures old(committed) <= budget ==> target == old(target) && held == old(held)
      ensures bytes <= 0 ==> committed == 0
    {
      budget := if bytes < 0 then 0 else bytes;
      if committed > budget {
        Trim();
      }
    }

    /** A collection: the traffic's buffers are gone, the reserves are not. */
    method Collect()
      requires Valid()
      modifies `spare, `gcEpoch
      ensures Valid() && gcEpoch == old(gcEpoch) + 1 && forall i :: 0 <= i < NUM_CLASSES ==> spare[i] == 0
    {
      spare, gcEpoch := Zeros(NUM_CLASSES), gcEpoch + 1;
    }

    /** Get: the capacity of the buffer given. `hit` says the traffic's pool had one to give. */
    method Get(size: int, hit: bool) returns (capacity: nat)
      requires Valid()
      modifies `target, `held, `spare, `committed
      ensures Valid() && capacity == Align(size)
      ensures !(0 < size <= MAX_SIZE) ==> target == old(target) && held == old(held) && spare == old(spare)
      ensures 0 < size <= MAX_SIZE ==>
                0 <= ClassUp(size) < NUM_CLASSES
                && var i := ClassUp(size);
                   if hit && old(spare)[i] > 0 then
                     spare == old(spare)[i := old(spare)[i] - 1] && held == old(held) && target == old(target)
                   else if old(held)[i] > 0 then
                     held == old(held)[i := old(held)[i] - 1] && spare == old(spare) && target == old(target)
                   else
                     held == old(held) && spare == old(spare)
                     && target == Raised(old(target), i, old(committed), budget)
    {
      if size <= 0 {
        return 0;
      }
      if size > MAX_SIZE {
        return size;
      }
      ClassesAgree(size);
      var i := ClassUp(size);
      if hit && spare[i] > 0 {
        spare := spare[i := spare[i] - 1];
        return ClassSize(i);
      }
      if held[i] > 0 {
        held := held[i := held[i] - 1];
        return ClassSize(i);
      }
      ReserveMore(i);
      return ClassSize(i);
    }

    /** beginRefill: the burst after a collection begins, and a target its last burst did not fill comes down. */
    method BeginRefill(i: nat)
      requires Valid() && i < NUM_CLASSES
      modifies `target, `refill, `epoch, `committed
      ensures Valid() && epoch[i] == gcEpoch && target[i] <= old(target)[i]
      ensures old(epoch)[i] != gcEpoch ==>
                && target == old(target)[i := if old(refill)[i] > 0 then held[i] else old(target)[i]]
                && refill == old(refill)[i := target[i]]
      ensures old(epoch)[i] == gcEpoch ==> target == old(target) && refill == old(refill)
    {
      if epoch[i] == gcEpoch {
        return;
      }
      epoch := epoch[i := gcEpoch];
      if refill[i] > 0 {
        CostUpdate(target, i, held[i]);
        CostFalls(target, i, held[i]);
        committed := committed + (held[i] - target[i]) * ClassSize(i);
        target := target[i := held[i]];
      }
      refill := refill[i := target[i]];
    }

    /** keep. */
    method Keep(i: nat) returns (kept: bool)
      requires Valid() && i < NUM_CLASSES
      modifies `held, `refill
      ensures Valid() && kept == (old(refill)[i] > 0 && old(held)[i] < target[i])
      ensures held == if kept then old(held)[i := old(held)[i] + 1] else old(held)
      ensures refill == old(refill)[i := OneLess(old(refill)[i])]
    {
      if refill[i] == 0 {
        return false;
      }
      refill := refill[i := refill[i] - 1];
      if held[i] >= target[i] {
        return false;
      }
      held := held[i := held[i] + 1];
      return true;
    }

    /** The class's last burst was not used up by the time of a collection. */
    predicate Lapsed(i: nat)
      reads this
      requires i < |epoch| && i < |refill|
    {
      epoch[i] != gcEpoch && refill[i] > 0
    }

    /** How many returns the reserve may still take since the last collection. */
    function Burst(i: nat): nat
      reads this
      requires i < |epoch| && i < |refill| && i < |target| && i < |held|
    {
      if epoch[i] == gcEpoch then refill[i] else if refill[i] > 0 then held[i] else target[i]
    }

    /** Put: a buffer goes to the class its capacity rounds down to, or is dropped. */
    method Put(capacity: nat)
      requires Valid()
      modifies `target, `held, `spare, `refill, `epoch, `committed
      ensures Valid()
      ensures capacity < MIN_SIZE || capacity > MAX_SIZE ==>
                held == old(held) && spare == old(spare) && target == old(target)
      ensures MIN_SIZE <= capacity <= MAX_SIZE ==>
                0 <= ClassDown(capacity) < NUM_CLASSES
                && var i := ClassDown(capacity);
                   && target == old(target)[i := if old(Lapsed(i)) then old(held)[i] else old(target)[i]]
                   && (if old(Burst(i)) > 0 && old(held)[i] < target[i]
                       then held == old(held)[i := old(held)[i] + 1] && spare == old(spare)
                       else held == old(held) && spare == old(spare)[i := old(spare)[i] + 1])
                   && refill == old(refill)[i := OneLess(old(Burst(i)))]
    {
      if capacity < MIN_SIZE || capacity > MAX_SIZE {
        return;
      }
      ClassDownFits(capacity);
      var i := ClassDown(capacity);
      if gcEpoch != epoch[i] {
        BeginRefill(i);
      }
      if refill[i] > 0 {
        var kept := Keep(i);
        if kept {
          return;
        }
      }
      spare := spare[i := spare[i] + 1];
    }

    // ---- Growing buffers through the pool.

    /** regrow: the bytes move to a buffer of the class that holds `capacity`, and the old one goes back. */
    method Regrow(buf: Slice, capacity: nat, hit: bool) returns (r: Slice)
      requires Valid() && Fits(buf) && |buf.bytes| <= capacity
      modifies this
      ensures Valid() && budget == old(budget) && r == Slice(buf.bytes, Align(capacity))
    {
      var room := Get(capacity, hit);
      Put(buf.cap);
      return Slice(buf.bytes, room);
    }

    /** Grow. */
    method Grow(buf: Slice, capacity: int, hit: bool) returns (r: Slice)
      requires Valid() && Fits(buf)
      modifies this
      ensures Valid() && budget == old(budget) && Fits(r) && r.bytes == buf.bytes && r.cap >= capacity
      ensures r.cap == if capacity <= buf.cap then buf.cap else Align(capacity)
    {
      if capacity <= buf.cap {
        return buf;
      }
      r := Regrow(buf, capacity, hit);
    }

    method Append(buf: Slice, data: seq<Byte>, hit: bool) returns (r: Slice)
      requires Valid() && Fits(buf)
      modifies this
      ensures Valid() && budget == old(budget) && Fits(r) && r.bytes == buf.bytes + data
    {
      r := Grow(buf, |buf.bytes| + |data|, hit);
      r := r.(bytes := r.bytes + data);
    }

    /** Join: the parts one after another, with room made once for all of them. */
    method Join(buf: Slice, parts: seq<seq<Byte>>, hit: bool) returns (r: Slice)
      requires Valid() && Fits(buf)
      modifies this
      ensures Valid() && budget == old(budget) && Fits(r) && r.bytes == buf.bytes + Concat(parts)
      ensures r.cap == if |r.bytes| <= buf.cap then buf.cap else Align(|r.bytes|)
    {
      var need := |buf.bytes|;
      for i := 0 to |parts|
        invariant Valid() && budget == old(budget) && need == |buf.bytes| + |Concat(parts[..i])|
      {
        assert parts[..i + 1][..i] == parts[..i];
        need := need + |parts[i]|;
      }
      assert parts[..|parts|] == parts;
      r := buf;
      if need > buf.cap {
        r := Regrow(buf, need, hit);
      }
      ghost var room := r.cap;
      for i := 0 to |parts|
        invariant Valid() && budget == old(budget) && r.cap == room && r.bytes == buf.bytes + Concat(parts[..i])
      {
        assert parts[..i + 1][..i] == parts[..i];
        r := r.(bytes := r.bytes + parts[i]);
      }
    }
  }

  datatype Op = Get(size: int, hit: bool) | Put(capacity: nat) | Collect | SetRetainedBytes(bytes: int)
              | Append(buf: Slice, data: seq<Byte>, hit: bool)

  /** After any sequence of operations what is committed is the sum of the targets in bytes, within the budget last set,
      and no class holds more than its target. */
  method Run(script: seq<Op>) returns (pool: Pool)
    ensures pool.Valid()
  {
    pool := new Pool();
    for n := 0 to |script|
      invariant pool.Valid()
    {
      match script[n] {
        case Get(size, hit) => var _ := pool.Get(size, hit);
        case Put(capacity) => pool.Put(capacity);
        case Collect => pool.Collect();
        case SetRetainedBytes(bytes) => pool.SetRetainedBytes(bytes);
        case Append(buf, data, hit) => if Fits(buf) { var _ := pool.Append(buf, data, hit); }
      }
    }
  }

  lemma CostFalls(target: seq<nat>, i: nat, v: nat)
    requires i < |target| && v <= target[i]
    ensures Cost(target[i := v]) <= Cost(target)
  {
    CostUpdate(target, i, v);
    var down, size := target[i] - v, ClassSize(i);
    calc {
      (v - target[i]) * size;
      (-down) * size;
      -(down * size);
    }
    assert down * size >= 0;
  }
}
