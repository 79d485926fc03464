/** A connection's output path: the byte-stream queue, its counters and the
    engine-wide total, with each lock region a method. The ghost fields are the
    bytes accepted from callers and the bytes the socket has taken. */
module SendQueue {
  import opened Basics
  import opened SendItems
  import BufferPool

  /** What a write system call reports once it is not interrupted: how many of the
      bytes it was handed the socket took, at least one and at most all of them. */
  datatype Sys = Takes(n: nat) | WouldBlock | Fails

  function Taken(w: Sys, attempted: nat): (n: nat)
    ensures n <= attempted && (attempted > 0 ==> (w.Takes? <==> n > 0))
    ensures w.Takes? && 0 < w.n <= attempted ==> n == w.n
  {
    if !w.Takes? || attempted == 0 then 0 else if w.n == 0 then 1 else Min(w.n, attempted)
  }

  datatype Mode = Copy | Owned | Pooled

  /** `sent` is how much of a send that its queue's limit refused had already gone. */
  datatype SendResult = Done | Queues | Refused | OverLimit(sent: nat) | WriteFailed

  /** How much of its data a send that ended so has had accepted. */
  function AcceptedOf(r: SendResult, data: seq<Byte>): seq<Byte> {
    match r
    case Done => data
    case Queues => data
    case OverLimit(sent) => if sent <= |data| then data[..sent] else data
    case Refused => []
    case WriteFailed => []
  }

  /** How a send of `n` bytes ends: refused; failed; taken whole by a write at once; or what that left of it queued,
      unless the queue would then be over its limit. */
  function SendEnds(n: nat, refuses: bool, direct: bool, w: Sys, queued: int, limit: int): SendResult {
    if n == 0 then Done
    else if refuses then Refused
    else if direct && w.Fails? then WriteFailed
    else
      var sent := SentNow(n, direct, w);
      if sent == n then Done
      else if limit > 0 && queued + n - sent > limit then OverLimit(sent)
      else Queues
  }

  /** How much of it goes at once. */
  function SentNow(n: nat, direct: bool, w: Sys): (sent: nat)
    ensures sent <= n
  {
    if direct && n > 0 then Taken(w, n) else 0
  }

  /** How a file's bytes reach the socket: by sendfile, copied through a buffer that
      took `read` of them, or not at all. */
  datatype FileRead = Sendfile | Copied(read: nat) | Unreadable

  /** How much of a file with `rest` bytes left one write is handed straight from it. */
  function FilePart(rest: nat, file: FileRead): nat {
    match file
    case Copied(read) => Max(1, Min(read, Min(rest, SEND_FILE_CHUNK)))
    case _ => Min(rest, MAX_SEND_FILE_CALL)
  }

  /** The next chunk of a sealed file, as it goes on the wire. */
  function NextChunk(seal: Sealer, f: FileSegment): seq<Byte> { seal(f.rest[..Min(|f.rest|, SEND_FILE_CHUNK)]) }

  /** How much the next write is handed: the file's part, the sealed chunk's or the record's rest, or the bytes of all
      the plain items it gathers, cut to records where the kernel seals them and no file follows. */
  function NextWrite(seal: Sealer, items: seq<Item>, useWritev: bool, kernelTLS: bool, file: FileRead): nat
    requires items != []
  {
    var head := items[0];
    if head.file.Some? && !head.file.value.sealed then FilePart(|head.file.value.rest|, file)
    else if head.file.Some? && head.data == [] then |NextChunk(seal, head.file.value)|
    else if head.file.Some? || head.record != 0 then Max(InMemory(head), 0)
    else
      var k := PlainRun(items, if useWritev then MAX_WRITEV_ITEMS else 1);
      var n := Memory(items[..k]);
      if n < 0 then 0 else RecordCut(n, kernelTLS && !(k < |items| && items[k].file.Some?))
  }

  /** What is at the head can be handed over: it is in memory, or its file can be read and a sealed chunk of it fits in
      the queue's limit. */
  predicate CanHand(seal: Sealer, items: seq<Item>, limit: int, file: FileRead)
    requires items != []
  {
    var head := items[0];
    head.file.None? || head.data != [] || (&& !file.Unreadable?
                                           && (head.file.value.sealed && limit > 0 ==>
                                                 Memory(items) + |NextChunk(seal, head.file.value)| <= limit))
  }

  predicate FromFile(items: seq<Item>)
    requires items != []
  {
    items[0].file.Some? && !items[0].file.value.sealed
  }

  /** A write is handed something, and no more than there is; where there are no files or records and the kernel does not
      seal, that is all there is, unless there are too many items for one write. */
  lemma NextWriteTakesAll(seal: Sealer, items: seq<Item>, useWritev: bool, kernelTLS: bool, file: FileRead)
    requires items != [] && AllLive(items) && forall i :: 0 <= i < |items| ==> Plain(items[i])
    requires |items| <= if useWritev then MAX_WRITEV_ITEMS else 1
    ensures var n, all := NextWrite(seal, items, useWritev, kernelTLS, file), |Content(seal, items)|;
            && 0 < n <= all && (n < all ==> kernelTLS && all - n <= KERNEL_RECORD_SIZE)
  {
    PlainRunIs(items, if useWritev then MAX_WRITEV_ITEMS else 1, |items|);
    assert items[..|items|] == items;
    PlainContent(seal, items);
    MemoryBounds(items);
  }

  /** What is staged of a file is first to go. */
  lemma StagedIsHead(seal: Sealer, items: seq<Item>)
    requires AllLive(items) && items != [] && items[0].file.Some? && items[0].data != []
    ensures Unsent(items[0]) <= Content(seal, items) && FromHead(items, InMemory(items[0]), false)
    ensures 0 < InMemory(items[0])
  {
  }

  /** What is gathered, and cut, is what the next write is handed. */
  lemma NextOfPlain(seal: Sealer, items: seq<Item>, useWritev: bool, kernelTLS: bool, file: FileRead,
                    buffers: seq<seq<Byte>>, m: nat)
    requires items != [] && AllLive(items) && 1 <= |buffers| <= |items|
    requires forall i :: 0 <= i < |buffers| ==> Plain(items[i]) && buffers[i] == Unsent(items[i])
    requires |buffers| <= if useWritev then MAX_WRITEV_ITEMS else 1
    requires useWritev && |buffers| < Min(|items|, MAX_WRITEV_ITEMS) ==> !Plain(items[|buffers|])
    requires var n := |Flatten(buffers)|;
             && 0 < m <= n && (m < n ==> m % KERNEL_RECORD_SIZE == 0 && n - m <= KERNEL_RECORD_SIZE)
             && (m < n <==> kernelTLS && n > KERNEL_RECORD_SIZE && !(|buffers| < |items| && items[|buffers|].file.Some?))
    ensures NextWrite(seal, items, useWritev, kernelTLS, file) == m
  {
    PlainRunIs(items, if useWritev then MAX_WRITEV_ITEMS else 1, |buffers|);
    GatheredLength(items, buffers);
    if m < |Flatten(buffers)| {
      RecordCutIs(|Flatten(buffers)|, m);
    }
  }

  lemma {:induction false} PlainContent(seal: Sealer, items: seq<Item>)
    requires AllLive(items) && forall i :: 0 <= i < |items| ==> Plain(items[i])
    ensures |Content(seal, items)| == Memory(items) && Files(items) == 0
  {
    if items != [] {
      PlainContent(seal, items[1..]);
    }
  }

  datatype FlushResult = Drained | Short | Yielded | Blocked | Busy | Failed

  /** How much a round may hold under its cork before it counts against the budget anyway. */
  const ROUND_CHARGE_BYTES := 32768

  class Engine {
    var pendingTotal: int

    constructor ()
      ensures pendingTotal == 0
    {
      pendingTotal := 0;
    }
  }

  class Connection {
    const engine: Engine
    const seal: Sealer
    const limit: int
    const sendBufferSize: nat
    const useWritev: bool
    var kernelTLS: bool
    var sends: seq<Item>
    var sendHead: nat
    var slots: nat
    var pendingBytes: int
    var charged: int
    var corkedBytes: int
    var corkedPending: int
    var fileBytes: int
    var corked: bool
    var flushing: bool
    var closing: bool
    var closed: bool
    var closeAfterSend: bool
    var writeShut: bool
    ghost var accepted: seq<Byte>
    ghost var taken: seq<Byte>

    /** The items still to send. */
    ghost function Queue(): seq<Item>
      reads this`sends, this`sendHead
    {
      if sendHead <= |sends| then sends[sendHead..] else []
    }

    /** Drained items are cleared, and every item after them has bytes left. */
    ghost predicate Shape()
      reads this`sends, this`sendHead
    {
      && sendHead <= |sends| && AllLive(sends[sendHead..]) && Seals(seal)
      && forall i :: 0 <= i < sendHead ==> sends[i] == CLEARED
    }

    /** What the socket took, followed by what is queued, is what was accepted. */
    ghost predicate Streams()
      requires Shape()
      reads this`sends, this`sendHead, this`accepted, this`taken
    {
      taken + Content(seal, Queue()) == accepted
    }

    /** The counters agree with the queue, and a limit is kept. */
    ghost predicate Counts()
      requires Shape()
      reads this
    {
      && pendingBytes + corkedBytes == Memory(Queue()) && fileBytes == Files(Queue())
      && (limit > 0 ==> pendingBytes + corkedBytes <= limit)
    }

    ghost predicate Valid()
      reads this
    {
      && Shape()
      && 0 <= corkedBytes && 0 <= charged <= pendingBytes
      && (!closed ==> corkedPending == corkedBytes && Streams() && Counts())
      && (closed ==> closing && Queue() == [] && taken <= accepted
                     && pendingBytes == corkedBytes == charged == fileBytes == 0)
    }

    constructor (engine: Engine, seal: Sealer, limit: int, sendBufferSize: nat, useWritev: bool)
      requires Seals(seal)
      ensures Valid() && this.engine == engine && this.seal == seal && this.limit == limit
      ensures accepted == [] && charged == 0 && !closed
    {
      this.engine, this.seal, this.limit := engine, seal, limit;
      this.sendBufferSize, this.useWritev, kernelTLS := sendBufferSize, useWritev, false;
      sends, sendHead, slots := [], 0, 0;
      pendingBytes, charged, corkedBytes, corkedPending, fileBytes := 0, 0, 0, 0, 0;
      corked, flushing, closing, closed, closeAfterSend, writeShut := false, false, false, false, false, false;
      accepted, taken := [], [];
    }

    // ---- The queue.

    /** pushLocked, with growQueueLocked. */
    method Push(it: Item)
      requires Shape() && Live(it)
      modifies `sends, `sendHead, `slots
      ensures Shape() && Queue() == old(Queue()) + [it]
    {
      if sendHead == |sends| {
        sends, sendHead := [], 0;
      }
      if |sends| == slots {
        slots := if slots == 0 then 1 else 2 * slots;
        sends, sendHead := sends[sendHead..], 0;
      }
      sends := sends + [it];
      assert Queue() == old(Queue()) + [it];
    }

    /** queueLocked: the parts merge into the trailing item's buffer, or start an item. */
    method Enqueue(first: seq<Byte>, second: seq<Byte>)
      requires Shape() && |first| + |second| > 0
      modifies `sends, `sendHead, `slots
      ensures Shape() && Content(seal, Queue()) == old(Content(seal, Queue())) + (first + second)
      ensures Memory(Queue()) == old(Memory(Queue())) + |first| + |second| && Files(Queue()) == old(Files(Queue()))
      ensures Extends(old(Queue()), Queue(), first + second)
    {
      var n := |sends|;
      if n > 0 {
        var tail := sends[n - 1];
        if tail.pooled && tail.offset == 0 && |tail.data| + |first| + |second| <= tail.room {
          assert tail.data + first + second == tail.data + (first + second);
          Merge(tail.(data := tail.data + first + second), first + second);
          return;
        }
      }
      var need := |first| + |second|;
      var buffer := BufferPool.Align(sendBufferSize);
      var it := Item(first + second, 0, if need <= buffer then buffer else BufferPool.Align(need), true, 0, None);
      assert Bytes(seal, it) == first + second;
      EnqueueItem(it);
    }

    /** The trailing item grows by `more`, in the room its buffer has. */
    method Merge(grown: Item, ghost more: seq<Byte>)
      requires Shape() && |sends| > 0 && more != [] && grown.data == sends[|sends| - 1].data + more
      requires grown == sends[|sends| - 1].(data := grown.data)
      requires grown.pooled && grown.offset == 0 && |grown.data| <= grown.room
      modifies `sends
      ensures Shape() && Content(seal, Queue()) == old(Content(seal, Queue())) + more
      ensures Memory(Queue()) == old(Memory(Queue())) + |more| && Files(Queue()) == old(Files(Queue()))
      ensures old(Queue()) != [] && old(Queue()[|Queue()| - 1] == sends[|sends| - 1])
      ensures Queue() == old(Queue())[|old(Queue())| - 1 := grown]
    {
      var n := |sends|;
      assert sendHead < n;
      ghost var before := Queue();
      assert before[|before| - 1] == sends[n - 1];
      GrowLast(seal, before, grown, more);
      sends := sends[n - 1 := grown];
      assert Queue() == before[|before| - 1 := grown];
    }

    /** queueSharedPartsLocked: the head is copied, the shared part kept as it is. */
    method EnqueueShared(first: seq<Byte>, second: seq<Byte>)
      requires Shape()
      modifies `sends, `sendHead, `slots
      ensures Shape() && Content(seal, Queue()) == old(Content(seal, Queue())) + (first + second)
      ensures Memory(Queue()) == old(Memory(Queue())) + |first| + |second| && Files(Queue()) == old(Files(Queue()))
    {
      ghost var before := Content(seal, Queue());
      Regroup(before, first, second);
      JoinNone(first, second);
      JoinNone(first, []);
      JoinNone(before, first);
      if |first| > 0 {
        Enqueue(first, []);
      }
      if |second| > 0 {
        assert Bytes(seal, Item(second, 0, 0, false, 0, None)) == second;
        EnqueueItem(Item(second, 0, 0, false, 0, None));
      }
    }

    /** An item queued as it is: an array the caller handed over, a buffer of the pool, a record. */
    method EnqueueItem(it: Item)
      requires Shape() && Live(it)
      modifies `sends, `sendHead, `slots
      ensures Shape() && Queue() == old(Queue()) + [it]
      ensures Content(seal, Queue()) == old(Content(seal, Queue())) + Bytes(seal, it)
      ensures Memory(Queue()) == old(Memory(Queue())) + InMemory(it)
      ensures Files(Queue()) == old(Files(Queue())) + InFile(it)
    {
      AppendOne(seal, Queue(), it);
      Push(it);
    }

    // ---- The counters.

    method Fold()
      modifies `corkedBytes, `corkedPending, `pendingBytes
      ensures corkedBytes == 0 && pendingBytes == old(pendingBytes + corkedBytes)
      ensures corkedPending - corkedBytes == old(corkedPending - corkedBytes)
    {
      corkedPending, pendingBytes := corkedPending - corkedBytes, pendingBytes + corkedBytes;
      corkedBytes := 0;
    }

    /** chargeLocked: the whole backlog counts against the engine's budget from here on. */
    method Charge()
      modifies `corkedBytes, `corkedPending, `pendingBytes, `charged, engine`pendingTotal
      ensures corkedBytes == 0 && pendingBytes == old(pendingBytes + corkedBytes)
      ensures corkedPending - corkedBytes == old(corkedPending - corkedBytes)
      ensures charged == if old(charged) < pendingBytes then pendingBytes else old(charged)
      ensures engine.pendingTotal - charged == old(engine.pendingTotal - charged)
    {
      Fold();
      var delta := pendingBytes - charged;
      if delta > 0 {
        charged := charged + delta;
        engine.pendingTotal := engine.pendingTotal + delta;
      }
    }

    /** hasQueuedOutput: the backlog is brought up to date for the checks that follow. */
    method HasQueued() returns (queued: bool)
      requires Valid()
      modifies `corkedBytes, `corkedPending, `pendingBytes
      ensures Valid() && corkedBytes == 0 && pendingBytes == old(pendingBytes + corkedBytes)
      ensures queued <==> Queue() != []
    {
      Fold();
      queued := sendHead != |sends|;
    }

    /** chargeRound: a round's output counts against the budget once there is enough of it. */
    method ChargeRound()
      requires Valid()
      modifies `corkedBytes, `corkedPending, `pendingBytes, `charged, engine`pendingTotal
      ensures Valid() && corkedBytes == 0 && pendingBytes == old(pendingBytes + corkedBytes)
      ensures charged == if pendingBytes >= ROUND_CHARGE_BYTES then pendingBytes else old(charged)
      ensures engine.pendingTotal - charged == old(engine.pendingTotal - charged)
    {
      Fold();
      if pendingBytes >= ROUND_CHARGE_BYTES {
        Charge();
      }
    }

    method AddPending(n: nat)
      requires 0 <= charged <= pendingBytes && 0 <= corkedBytes
      modifies `corkedBytes, `corkedPending, `pendingBytes, `charged, engine`pendingTotal
      ensures 0 <= corkedBytes && pendingBytes + corkedBytes == old(pendingBytes + corkedBytes) + n
      ensures corkedPending - corkedBytes == old(corkedPending - corkedBytes)
      ensures 0 <= charged <= pendingBytes && (n > 0 && !corked ==> corkedBytes == 0 && charged == pendingBytes)
      ensures n == 0 || corked ==> charged == old(charged) && corkedBytes == old(corkedBytes)
      ensures engine.pendingTotal - charged == old(engine.pendingTotal - charged)
    {
      if n == 0 {
        return;
      }
      pendingBytes := pendingBytes + n;
      if !corked {
        Charge();
      }
    }

    /** subPending, with releaseBudget: the clamp is for a count that has gone wrong. */
    method SubPending(n: nat)
      requires 0 <= charged <= pendingBytes && 0 <= corkedBytes
      modifies `corkedBytes, `corkedPending, `pendingBytes, `charged, engine`pendingTotal
      ensures n > 0 ==> corkedBytes == 0 && pendingBytes == Max(old(pendingBytes + corkedBytes) - n, 0)
      ensures n == 0 ==> corkedBytes == old(corkedBytes) && pendingBytes == old(pendingBytes)
      ensures corkedPending - corkedBytes == old(corkedPending - corkedBytes)
      ensures 0 <= charged <= pendingBytes && charged == Min(old(charged), pendingBytes)
      ensures engine.pendingTotal - charged == old(engine.pendingTotal - charged)
    {
      if n == 0 {
        return;
      }
      Fold();
      var left := pendingBytes - n;
      pendingBytes := left;
      if left < 0 {
        pendingBytes := 0;
        left := 0;
      }
      if charged > left {
        var released := charged - left;
        charged := left;
        engine.pendingTotal := engine.pendingTotal - released;
      }
    }

    /** sendQueueOverLocked. */
    predicate Over(n: nat)
      reads this
    {
      limit > 0 && pendingBytes + corkedBytes + n > limit
    }

    predicate Direct()
      reads this
    {
      sendHead == |sends| && !flushing && !corked
    }

    predicate Refuses()
      reads this
    {
      closing || closed || closeAfterSend || writeShut
    }

    // ---- Sending.

    /** What a send leaves behind, whatever became of it: the connection is valid,
        its share of the total moved with it, and `more` is what it accepted. */
    twostate predicate After(more: seq<Byte>)
      reads this, engine
    {
      && Valid() && accepted == old(accepted) + more && old(taken) <= taken && closed == old(closed)
      && engine.pendingTotal - charged == old(engine.pendingTotal - charged)
    }

    /** Unless a cork holds it, the whole backlog is charged. */
    ghost predicate Charged()
      reads this
    {
      !corked ==> corkedBytes == 0 && charged == pendingBytes
    }

    /** A direct write, with nothing queued ahead of it. */
    method WriteDirect(ghost data: seq<Byte>, length: nat, w: Sys) returns (sent: nat)
      requires Valid() && !closed && Direct() && length == |data| > 0 && !w.Fails?
      modifies `accepted, `taken
      ensures sent == Taken(w, length) && Valid()
      ensures accepted == old(accepted) + data[..sent] && taken == old(taken) + data[..sent]
    {
      sent := Taken(w, length);
      assert Queue() == [] && taken + [] == taken;
      taken, accepted := taken + data[..sent], accepted + data[..sent];
      assert taken + [] == taken;
    }

    /** Counting `more` bytes just queued, which were accepted with them. */
    method Count(ghost more: seq<Byte>, n: nat)
      requires !closed && n == |more| > 0 && Shape() && 0 <= corkedBytes && 0 <= charged <= pendingBytes
      requires corkedPending == corkedBytes && !Over(n) && fileBytes == Files(Queue())
      requires pendingBytes + corkedBytes + n == Memory(Queue()) && taken + Content(seal, Queue()) == accepted + more
      modifies `corkedBytes, `corkedPending, `pendingBytes, `charged, `accepted, engine`pendingTotal
      ensures Valid() && accepted == old(accepted) + more && Charged()
      ensures engine.pendingTotal - charged == old(engine.pendingTotal - charged)
    {
      accepted := accepted + more;
      assert Streams();
      AddPending(n);
      if !corked {
        Fold();
      }
      assert Streams() && Counts();
    }

    /** send: a direct write, then what the socket did not take joins the queue. */
    method Send(data: seq<Byte>, mode: Mode, room: nat, w: Sys) returns (r: SendResult)
      requires Valid() && (mode.Pooled? ==> |data| <= room)
      modifies this, engine`pendingTotal
      ensures r == SendEnds(|data|, old(Refuses()), old(Direct()), w, old(pendingBytes + corkedBytes), limit)
      ensures After(AcceptedOf(r, data)) && (r.Queues? ==> Charged())
      ensures |taken| == |old(taken)| + if r.Refused? then 0 else SentNow(|data|, old(Direct()), w)
      ensures |data| > 0 ==> (r.Refused? <==> old(closing || closed || closeAfterSend || writeShut))
      ensures |data| > 0 && !r.Refused? ==> (old(taken) < taken <==> old(Queue() == [] && !flushing && !corked) && w.Takes?)
    {
      if |data| == 0 {
        return Done;
      }
      if Refuses() {
        return Refused;
      }
      if mode.Copy? && corked {
        assert data + [] == data;
        r := SendCorked(data, [], data, false);
        return;
      }
      r := SendNow(data, mode, room, w);
    }

    /** A direct write, if nothing is ahead of the data. */
    method SendAtOnce(ghost data: seq<Byte>, length: nat, w: Sys) returns (sent: nat, failed: bool)
      requires Valid() && !closed && length == |data| > 0
      modifies `accepted, `taken
      ensures Valid() && failed == (old(Direct()) && w.Fails?) && old(taken) <= taken
      ensures sent == SentNow(length, old(Direct()), w) && |taken| == |old(taken)| + sent
      ensures accepted == old(accepted) + data[..sent] && (sent == length ==> accepted == old(accepted) + data)
      ensures failed ==> accepted == old(accepted) + []
    {
      sent, failed := 0, false;
      if Direct() && w.Fails? {
        failed := true;
      } else if Direct() {
        sent := WriteDirect(data, length, w);
      }
      JoinNone(old(accepted), data[..0]);
      assert data[..length] == data;
    }

    /** The part of send that may write at once. */
    method SendNow(data: seq<Byte>, mode: Mode, room: nat, w: Sys) returns (r: SendResult)
      requires Valid() && !closed && |data| > 0 && (mode.Pooled? ==> |data| <= room)
      modifies this, engine`pendingTotal
      ensures r == SendEnds(|data|, false, old(Direct()), w, old(pendingBytes + corkedBytes), limit)
      ensures After(AcceptedOf(r, data)) && (r.Queues? ==> Charged())
      ensures |taken| == |old(taken)| + SentNow(|data|, old(Direct()), w)
    {
      var sent, failed := SendAtOnce(data, |data|, w);
      if failed {
        return WriteFailed;
      }
      if sent == |data| {
        return Done;
      }
      r := Backlog(data, sent, mode, room);
      AcceptedInAll(old(accepted), data, sent, r);
    }

    /** The end of a send the socket did not take all of: its limit, then the queue. */
    method Backlog(data: seq<Byte>, sent: nat, mode: Mode, room: nat) returns (r: SendResult)
      requires Valid() && !closed && sent < |data| && (mode.Pooled? ==> |data| <= room)
      modifies this, engine`pendingTotal
      ensures r == if old(Over(|data| - sent)) then OverLimit(sent) else Queues
      ensures After(if r.Queues? then data[sent..] else []) && taken == old(taken) && (r.Queues? ==> Charged())
    {
      if Over(|data| - sent) {
        return OverLimit(sent);
      }
      Joins(taken, Content(seal, Queue()), accepted, data[sent..]);
      EnqueueRest(data, sent, mode, room);
      Count(data[sent..], |data| - sent);
      return Queues;
    }

    /** Queues what the socket left of `data` as its mode has it: copied, kept as the
        caller's array, or kept whole, with what was sent past as its offset. */
    method EnqueueRest(data: seq<Byte>, sent: nat, mode: Mode, room: nat)
      requires Shape() && sent < |data| && (mode.Pooled? ==> |data| <= room)
      modifies `sends, `sendHead, `slots
      ensures Shape() && Content(seal, Queue()) == old(Content(seal, Queue())) + data[sent..]
      ensures Memory(Queue()) == old(Memory(Queue())) + |data| - sent && Files(Queue()) == old(Files(Queue()))
    {
      match mode {
        case Copy =>
          assert data[sent..] + [] == data[sent..];
          Enqueue(data[sent..], []);
        case Owned => EnqueueItem(Item(data[sent..], 0, 0, false, 0, None));
        case Pooled => EnqueueItem(Item(data, sent, room, true, 0, None));
      }
    }

    method EnqueueBoth(first: seq<Byte>, second: seq<Byte>, shared: bool)
      requires Shape() && |first| + |second| > 0
      modifies `sends, `sendHead, `slots
      ensures Shape() && Content(seal, Queue()) == old(Content(seal, Queue())) + (first + second)
      ensures Memory(Queue()) == old(Memory(Queue())) + |first| + |second| && Files(Queue()) == old(Files(Queue()))
    {
      if shared {
        EnqueueShared(first, second);
      } else {
        Enqueue(first, second);
      }
    }

    /** How a corked connection takes a send: it is queued, and counted when the cork comes off. */
    method SendCorked(first: seq<Byte>, second: seq<Byte>, ghost data: seq<Byte>, shared: bool) returns (r: SendResult)
      requires Valid() && !closed && data == first + second && |data| > 0
      modifies `sends, `sendHead, `slots, `corkedBytes, `corkedPending, `accepted
      ensures r == if old(Over(|data|)) then OverLimit(0) else Queues
      ensures Valid() && accepted == old(accepted) + AcceptedOf(r, data)
    {
      if Over(|first| + |second|) {
        JoinNone(accepted, data[..0]);
        return OverLimit(0);
      }
      QueueCorked(first, second, data, shared);
      return Queues;
    }

    /** What a cork holds joins the queue, counted with the cork's. */
    method QueueCorked(first: seq<Byte>, second: seq<Byte>, ghost data: seq<Byte>, shared: bool)
      requires Valid() && !closed && data == first + second && |data| > 0 && !Over(|data|)
      modifies `sends, `sendHead, `slots, `corkedBytes, `corkedPending, `accepted
      ensures Valid() && accepted == old(accepted) + data
    {
      Joins(taken, Content(seal, Queue()), accepted, data);
      EnqueueBoth(first, second, shared);
      corkedBytes, corkedPending := corkedBytes + |first| + |second|, corkedPending + |first| + |second|;
      accepted := accepted + data;
      assert Streams() && Counts();
    }

    /** Queues what the socket left of two parts. */
    method EnqueueParts(first: seq<Byte>, second: seq<Byte>, sent: nat, shared: bool)
      requires Shape() && sent < |first| + |second|
      modifies `sends, `sendHead, `slots
      ensures Shape() && Content(seal, Queue()) == old(Content(seal, Queue())) + (first + second)[sent..]
      ensures Memory(Queue()) == old(Memory(Queue())) + |first| + |second| - sent && Files(Queue()) == old(Files(Queue()))
    {
      var a := if sent < |first| then first[sent..] else second[sent - |first|..];
      var b := if sent < |first| then second else [];
      assert (first + second)[sent..] == a + b;
      if !shared {
        Enqueue(a, b);
      } else if sent < |first| {
        EnqueueShared(a, b);
      } else {
        assert a + b == b + a;
        EnqueueShared(b, a);
      }
    }

    /** sendParts: one message in two parts, the second kept as it is when it is shared. */
    method SendParts(first: seq<Byte>, second: seq<Byte>, shared: bool, w: Sys) returns (r: SendResult)
      requires Valid()
      modifies this, engine`pendingTotal
      ensures r == SendEnds(|first| + |second|, old(Refuses()), old(Direct()), w, old(pendingBytes + corkedBytes), limit)
      ensures After(AcceptedOf(r, first + second)) && (r.Queues? ==> Charged())
      ensures |taken| == |old(taken)| + if r.Refused? then 0 else SentNow(|first| + |second|, old(Direct()), w)
      ensures |first| + |second| > 0 ==> (r.Refused? <==> old(closing || closed || closeAfterSend || writeShut))
      ensures |first| + |second| > 0 && !r.Refused? ==>
                (old(taken) < taken <==> old(Queue() == [] && !flushing && !corked) && w.Takes?)
    {
      r := SendJoined(first, second, first + second, shared, w);
    }

    method SendJoined(first: seq<Byte>, second: seq<Byte>, ghost data: seq<Byte>, shared: bool, w: Sys)
      returns (r: SendResult)
      requires Valid() && data == first + second
      modifies this, engine`pendingTotal
      ensures r == SendEnds(|data|, old(Refuses()), old(Direct()), w, old(pendingBytes + corkedBytes), limit)
      ensures After(AcceptedOf(r, data)) && (r.Queues? ==> Charged())
      ensures |taken| == |old(taken)| + if r.Refused? then 0 else SentNow(|data|, old(Direct()), w)
    {
      JoinNone(accepted, []);
      if |first| + |second| == 0 {
        JoinNone(accepted, data);
        return Done;
      }
      if Refuses() {
        return Refused;
      }
      if corked {
        r := SendCorked(first, second, data, shared);
        return;
      }
      r := SendPartsNow(first, second, data, shared, w);
    }

    method SendPartsNow(first: seq<Byte>, second: seq<Byte>, ghost data: seq<Byte>, shared: bool, w: Sys)
      returns (r: SendResult)
      requires Valid() && !closed && data == first + second && |data| > 0
      modifies this, engine`pendingTotal
      ensures r == SendEnds(|data|, false, old(Direct()), w, old(pendingBytes + corkedBytes), limit)
      ensures After(AcceptedOf(r, data)) && (r.Queues? ==> Charged())
      ensures |taken| == |old(taken)| + SentNow(|data|, old(Direct()), w)
    {
      var total := |first| + |second|;
      var sent, failed := SendAtOnce(data, total, w);
      if failed {
        return WriteFailed;
      }
      if sent == total {
        return Done;
      }
      r := BacklogParts(first, second, data, sent, shared);
      AcceptedInAll(old(accepted), data, sent, r);
    }

    method BacklogParts(first: seq<Byte>, second: seq<Byte>, ghost data: seq<Byte>, sent: nat, shared: bool)
      returns (r: SendResult)
      requires Valid() && !closed && data == first + second && sent < |data|
      modifies this, engine`pendingTotal
      ensures r == if old(Over(|data| - sent)) then OverLimit(sent) else Queues
      ensures After(if r.Queues? then data[sent..] else []) && taken == old(taken) && (r.Queues? ==> Charged())
    {
      if Over(|first| + |second| - sent) {
        return OverLimit(sent);
      }
      Joins(taken, Content(seal, Queue()), accepted, data[sent..]);
      EnqueueParts(first, second, sent, shared);
      Count(data[sent..], |first| + |second| - sent);
      return Queues;
    }

    /** sendFile's region: the file is queued whole; the caller flushes at once if nothing was ahead of it. */
    method SendFile(content: seq<Byte>, sealed: bool) returns (r: SendResult, direct: bool)
      requires Valid() && |content| > 0
      modifies this
      ensures r.Refused? <==> old(closing || closed || closeAfterSend || writeShut)
      ensures r.Refused? ==> Valid() && accepted == old(accepted) && !direct
      ensures !r.Refused? ==> r.Queues? && Valid() && direct == old(Queue() == [] && !flushing && !corked)
      ensures !r.Refused? ==> accepted == old(accepted) + FileBytes(seal, FileSegment(content, sealed))
      ensures charged == old(charged) && closed == old(closed) && taken == old(taken)
    {
      if Refuses() {
        return Refused, false;
      }
      direct := Direct();
      ghost var wire := FileBytes(seal, FileSegment(content, sealed));
      Joins(taken, Content(seal, Queue()), accepted, wire);
      assert Bytes(seal, Item([], 0, 0, false, 0, Some(FileSegment(content, sealed)))) == wire;
      EnqueueItem(Item([], 0, 0, false, 0, Some(FileSegment(content, sealed))));
      fileBytes := fileBytes + |content|;
      accepted := accepted + FileBytes(seal, FileSegment(content, sealed));
      r := Queues;
    }

    /** SendRawRecord's region: one record for the kernel to seal. */
    method SendRecord(typ: nat, data: seq<Byte>) returns (r: SendResult, direct: bool)
      requires Valid() && |data| > 0 && typ > 0
      modifies this, engine`pendingTotal
      ensures r == if old(Refuses()) then Refused else if old(Over(|data|)) then OverLimit(0) else Queues
      ensures After(AcceptedOf(r, data)) && taken == old(taken) && (r.Queues? ==> Charged())
      ensures r.Refused? <==> old(closing || closed || closeAfterSend || writeShut)
      ensures r.OverLimit? <==> !r.Refused? && limit > 0 && old(pendingBytes + corkedBytes) + |data| > limit
      ensures direct == (r.Queues? && old(Queue() == [] && !flushing && !corked))
    {
      if Refuses() {
        return Refused, false;
      }
      if Over(|data|) {
        return OverLimit(0), false;
      }
      direct := Direct();
      QueueRecord(typ, data);
      r := Queues;
    }

    method QueueRecord(typ: nat, data: seq<Byte>)
      requires Valid() && !closed && |data| > 0 && typ > 0 && !Over(|data|)
      modifies `sends, `sendHead, `slots, `pendingBytes, `corkedBytes, `corkedPending, `charged, `accepted,
               engine`pendingTotal
      ensures After(data) && Charged()
    {
      Joins(taken, Content(seal, Queue()), accepted, data);
      assert Bytes(seal, Item(data, 0, 0, false, typ, None)) == data;
      EnqueueItem(Item(data, 0, 0, false, typ, None));
      Count(data, |data|);
    }

    // ---- Flushing.

    /** The head has drained: it surrenders its buffer. */
    method PopHead()
      requires Shape() && sendHead < |sends|
      modifies `sends, `sendHead
      ensures Shape() && Queue() == old(Queue())[1..] && |sends| == old(|sends|) && sendHead == old(sendHead) + 1
    {
      sends := sends[sendHead := CLEARED];
      sendHead := sendHead + 1;
      assert Queue() == old(Queue())[1..];
    }

    method SetHead(it: Item)
      requires Shape() && sendHead < |sends| && Live(it)
      modifies `sends
      ensures Shape() && Queue() == old(Queue())[0 := it]
    {
      sends := sends[sendHead := it];
      assert Queue() == old(Queue())[0 := it];
    }

    /** One item's part of consumeLocked: what it takes of `left`, and whether it ends there. */
    method ConsumeHead(left: nat, ghost fromFile: bool) returns (took: nat, ends: bool)
      requires Shape() && sendHead < |sends| && FromHead(Queue(), left, fromFile)
      modifies `sends, `sendHead
      ensures Shape() && took <= left && TakenOff(seal, old(Queue()), Queue(), took, fromFile)
      ensures ends ==> took == left
      ensures !ends ==> FromHead(Queue(), left - took, fromFile) && sendHead == old(sendHead) + 1 && |sends| == old(|sends|)
    {
      var it := sends[sendHead];
      if it.file.Some? && it.data == [] {
        took, ends := ConsumeFile(left, fromFile);
      } else {
        took, ends := ConsumeData(left, fromFile);
      }
    }

    /** Where what went came straight from the file at the head. */
    method ConsumeFile(left: nat, ghost fromFile: bool) returns (took: nat, ends: bool)
      requires Shape() && sendHead < |sends| && FromHead(Queue(), left, fromFile)
      requires sends[sendHead].file.Some? && sends[sendHead].data == []
      modifies `sends, `sendHead
      ensures Shape() && took <= left && TakenOff(seal, old(Queue()), Queue(), took, fromFile)
      ensures ends ==> took == left
      ensures !ends ==> FromHead(Queue(), left - took, fromFile) && sendHead == old(sendHead) + 1 && |sends| == old(|sends|)
    {
      var it := sends[sendHead];
      assert it == Queue()[0];
      var f := it.file.value;
      if left < |f.rest| {
        FileTakes(seal, Queue(), left, fromFile);
        SetHead(it.(file := Some(f.(rest := f.rest[left..]))));
        return left, true;
      }
      PopTakes(seal, Queue(), left, fromFile);
      PopHead();
      return |f.rest|, false;
    }

    /** Where it came from memory. */
    method ConsumeData(left: nat, ghost fromFile: bool) returns (took: nat, ends: bool)
      requires Shape() && sendHead < |sends| && FromHead(Queue(), left, fromFile)
      requires !(sends[sendHead].file.Some? && sends[sendHead].data == [])
      modifies `sends, `sendHead
      ensures Shape() && took <= left && TakenOff(seal, old(Queue()), Queue(), took, fromFile)
      ensures ends ==> took == left
      ensures !ends ==> FromHead(Queue(), left - took, fromFile) && sendHead == old(sendHead) + 1 && |sends| == old(|sends|)
    {
      var it := sends[sendHead];
      assert it == Queue()[0];
      var remaining := |it.data| - it.offset;
      if left < remaining {
        OffsetTakes(seal, Queue(), left, fromFile);
        SetHead(it.(offset := it.offset + left));
        return left, true;
      }
      if it.file.Some? && it.file.value.rest != [] {
        ChunkTakes(seal, Queue(), left, fromFile);
        SetHead(it.(data := [], offset := 0));
        return left, true;
      }
      PopTakes(seal, Queue(), left, fromFile);
      PopHead();
      return remaining, false;
    }

    /** consumeLocked: `n` bytes the socket accepted come off the head of the queue. */
    method Consume(n: nat, ghost fromFile: bool)
      requires Shape() && FromHead(Queue(), n, fromFile)
      modifies `sends, `sendHead
      ensures Shape() && TakenOff(seal, old(Queue()), Queue(), n, fromFile)
    {
      ghost var before := Queue();
      TakenOffNone(seal, before, fromFile);
      var left: nat, ends := n, false;
      while !ends && sendHead < |sends|
        invariant Shape() && left <= n
        invariant if ends then TakenOff(seal, before, Queue(), n, fromFile)
                  else Consuming(seal, before, Queue(), n - left, left, fromFile)
        decreases !ends, |sends| - sendHead
      {
        left, ends := ConsumeOne(before, n - left, left, fromFile);
      }
      if !ends {
        ConsumedAll(seal, before, Queue(), n - left, left, fromFile);
      }
    }

    /** One turn of its loop, with `gone` bytes of what was `before` taken already. */
    method ConsumeOne(ghost before: seq<Item>, ghost gone: nat, left: nat, ghost fromFile: bool)
      returns (still: nat, ends: bool)
      requires Shape() && sendHead < |sends| && Consuming(seal, before, Queue(), gone, left, fromFile)
      modifies `sends, `sendHead
      ensures Shape() && still <= left
      ensures ends ==> TakenOff(seal, before, Queue(), gone + left, fromFile)
      ensures !ends ==> Consuming(seal, before, Queue(), gone + left - still, still, fromFile)
                        && |sends| - sendHead < old(|sends| - sendHead)
    {
      ghost var now := Queue();
      var took;
      took, ends := ConsumeHead(left, fromFile);
      still := left - took;
      ConsumesOn(seal, before, now, Queue(), gone, took, left, fromFile);
    }

    /** The buffers one write takes: the unsent bytes of the plain items at the head. */
    method Gather() returns (buffers: seq<seq<Byte>>)
      requires Shape() && sendHead < |sends| && Plain(sends[sendHead])
      ensures 1 <= |buffers| <= |Queue()| && |buffers| <= MAX_WRITEV_ITEMS && (!useWritev ==> |buffers| == 1)
      ensures forall i :: 0 <= i < |buffers| ==> Plain(Queue()[i]) && buffers[i] == Unsent(Queue()[i])
      ensures useWritev && |buffers| < Min(|Queue()|, MAX_WRITEV_ITEMS) ==> !Plain(Queue()[|buffers|])
    {
      var most := if useWritev then Min(|sends| - sendHead, MAX_WRITEV_ITEMS) else 1;
      buffers := [];
      while |buffers| < most && Plain(sends[sendHead + |buffers|])
        invariant 0 <= |buffers| <= most
        invariant forall i :: 0 <= i < |buffers| ==> Plain(Queue()[i]) && buffers[i] == Unsent(Queue()[i])
      {
        buffers := buffers + [Unsent(sends[sendHead + |buffers|])];
      }
    }

    /** A file is queued there. */
    ghost predicate FileAt(at: nat)
      reads this
    {
      at < |sends| && sends[at].file.Some?
    }

    /** kernelCutLocked: how a write goes where the kernel's TLS seals it. */
    method KernelCut(buffers: seq<seq<Byte>>, n: nat) returns (cut: seq<seq<Byte>>, m: nat, more: bool)
      requires n == |Flatten(buffers)| && n > 0
      ensures 0 < m <= n && Flatten(cut) == Flatten(buffers)[..m]
      ensures m < n ==> m % KERNEL_RECORD_SIZE == 0 && n - m <= KERNEL_RECORD_SIZE
      ensures m < n <==> kernelTLS && n > KERNEL_RECORD_SIZE && !FileAt(sendHead + |buffers|)
      ensures more <==> m < n || (kernelTLS && FileAt(sendHead + |buffers|))
    {
      assert Flatten(buffers)[..n] == Flatten(buffers);
      var next := sendHead + |buffers|;
      if !kernelTLS {
        return buffers, n, false;
      }
      if next < |sends| && sends[next].file.Some? {
        return buffers, n, true;
      }
      if n <= KERNEL_RECORD_SIZE {
        return buffers, n, false;
      }
      cut, m := CutToRecords(buffers, n);
      more := true;
    }

    /** stageSealedLocked: the next chunk of a sealed file moves into memory, unless
        one waits there already. `readable` says the file still holds it. */
    method Stage(readable: bool) returns (ok: bool)
      requires Valid() && !closed && sendHead < |sends|
      requires sends[sendHead].file.Some? && sends[sendHead].file.value.sealed
      modifies `sends, `pendingBytes, `corkedBytes, `corkedPending, `charged, `fileBytes, engine`pendingTotal
      ensures Valid() && engine.pendingTotal - charged == old(engine.pendingTotal - charged)
      ensures sendHead < |sends| && sends[sendHead].file.Some? && (ok ==> sends[sendHead].data != [])
      ensures ok <==> old(sends[sendHead].data != [])
                      || (readable && !old(Over(|NextChunk(seal, sends[sendHead].file.value)|)))
      ensures ok ==> InMemory(sends[sendHead]) == old(if sends[sendHead].data != [] then InMemory(sends[sendHead])
                                                      else |NextChunk(seal, sends[sendHead].file.value)|)
    {
      var it := sends[sendHead];
      if it.data != [] {
        return true;
      }
      var f := it.file.value;
      var want := Min(|f.rest|, SEND_FILE_CHUNK);
      if !readable {
        return false;
      }
      var sealed := seal(f.rest[..want]);
      if Over(|sealed|) {
        return false;
      }
      PutStaged(want, sealed);
      return true;
    }

    /** The chunk takes its place at the head, and in the counts. */
    method PutStaged(want: nat, sealed: seq<Byte>)
      requires Valid() && !closed && sendHead < |sends| && !Over(|sealed|)
      requires var it := sends[sendHead];
               && it.file.Some? && it.file.value.sealed && it.data == []
               && want == Min(|it.file.value.rest|, SEND_FILE_CHUNK) && sealed == seal(it.file.value.rest[..want])
      modifies `sends, `pendingBytes, `corkedBytes, `corkedPending, `charged, `fileBytes, engine`pendingTotal
      ensures Valid() && engine.pendingTotal - charged == old(engine.pendingTotal - charged)
      ensures sendHead < |sends| && sends[sendHead].file.Some? && sends[sendHead].data == sealed != []
      ensures sends[sendHead].offset == 0
    {
      var it := sends[sendHead];
      var f := it.file.value;
      SetStaged(it.(data := sealed, offset := 0, file := Some(f.(rest := f.rest[want..]))), want, sealed);
      AddPending(|sealed|);
    }

    /** The file at the head has lost what was staged of it. */
    method SetStaged(staged: Item, want: nat, ghost sealed: seq<Byte>)
      requires Shape() && sendHead < |sends| && fileBytes == Files(Queue())
      requires var it := sends[sendHead];
               && it.file.Some? && it.file.value.sealed && it.data == []
               && want == Min(|it.file.value.rest|, SEND_FILE_CHUNK) && sealed == seal(it.file.value.rest[..want])
               && staged == it.(data := sealed, offset := 0,
                                file := Some(it.file.value.(rest := it.file.value.rest[want..])))
      modifies `sends, `fileBytes
      ensures Shape() && sendHead < |sends| && sends[sendHead] == staged && staged.data != []
      ensures Content(seal, Queue()) == old(Content(seal, Queue())) && fileBytes == Files(Queue())
      ensures Memory(Queue()) == old(Memory(Queue())) + |sealed|
    {
      StageMoves(seal, Queue(), want);
      SetHead(staged);
      fileBytes := Max(fileBytes - want, 0);
    }

    /** The part of it that is a record or plain items. */
    method AttemptMemory(ghost file: FileRead) returns (ghost wire: seq<Byte>, attempted: nat)
      requires Shape() && sendHead < |sends| && sends[sendHead].file.None?
      ensures attempted == |wire| > 0 && wire <= Content(seal, Queue()) && FromHead(Queue(), attempted, false)
      ensures attempted == Next(file)
    {
      var head := sends[sendHead];
      assert head == Queue()[0];
      if head.record != 0 {
        MemoryBounds(Queue()[1..]);
        return Unsent(head), |head.data| - head.offset;
      }
      var buffers := Gather();
      PlainPrefix(seal, Queue(), buffers);
      var cut, m, more := KernelCut(buffers, |Flatten(buffers)|);
      NextOfPlain(seal, Queue(), useWritev, kernelTLS, file, buffers, m);
      return Flatten(cut), m;
    }

    /** How much the next write is handed, and whether it can be. */
    ghost function Next(file: FileRead): nat
      requires Queue() != []
      reads this`sends, this`sendHead, this`kernelTLS
    {
      NextWrite(seal, Queue(), useWritev, kernelTLS, file)
    }

    ghost predicate CanHandOver(file: FileRead)
      requires Queue() != []
      reads this`sends, this`sendHead
    {
      CanHand(seal, Queue(), limit, file)
    }

    /** How much of what is queued a turn of a flush gets rid of. */
    ghost function Goes(w: Sys, file: FileRead): nat
      reads this`sends, this`sendHead, this`kernelTLS
    {
      if Queue() != [] && CanHandOver(file) then Taken(w, Next(file)) else 0
    }

    /** A write that takes less than it is handed leaves the socket full, unless it is sendfile's. */
    ghost predicate FillsUp(w: Sys, file: FileRead)
      reads this`sends, this`sendHead, this`kernelTLS
    {
      0 < Goes(w, file) < Next(file) && !(FromFile(Queue()) && file.Sendfile?)
    }

    /** What the next write of a flush hands the socket: `wire`, a prefix of the
        stream still to send, from memory or straight from a file. */
    method Attempt(file: FileRead) returns (ok: bool, ghost wire: seq<Byte>, attempted: nat, fromFile: bool)
      requires Valid() && !closed && sendHead < |sends|
      modifies `sends, `pendingBytes, `corkedBytes, `corkedPending, `charged, `fileBytes, engine`pendingTotal
      ensures Valid() && sendHead < |sends| && engine.pendingTotal - charged == old(engine.pendingTotal - charged)
      ensures ok ==> attempted == |wire| > 0 && wire <= Content(seal, Queue()) && FromHead(Queue(), attempted, fromFile)
      ensures ok <==> old(CanHandOver(file))
      ensures ok ==> attempted == old(Next(file)) && fromFile == old(FromFile(Queue()))
    {
      ok, wire, attempted, fromFile := true, [], 0, false;
      var head := sends[sendHead];
      assert head == Queue()[0];
      if head.file.Some? && !head.file.value.sealed {
        attempted, fromFile := |head.file.value.rest|, true;
        attempted := match file
          case Copied(read) => Max(1, Min(read, Min(attempted, SEND_FILE_CHUNK)))
          case _ => Min(attempted, MAX_SEND_FILE_CALL);
        wire, ok := head.file.value.rest[..attempted], !file.Unreadable?;
      } else if head.file.Some? {
        ok, wire, attempted := AttemptSealed(file);
      } else {
        wire, attempted := AttemptMemory(file);
      }
    }

    /** The chunk of a sealed file, staged if need be. */
    method AttemptSealed(file: FileRead) returns (ok: bool, ghost wire: seq<Byte>, attempted: nat)
      requires Valid() && !closed && sendHead < |sends|
      requires sends[sendHead].file.Some? && sends[sendHead].file.value.sealed
      modifies `sends, `pendingBytes, `corkedBytes, `corkedPending, `charged, `fileBytes, engine`pendingTotal
      ensures Valid() && sendHead < |sends| && engine.pendingTotal - charged == old(engine.pendingTotal - charged)
      ensures ok ==> attempted == |wire| > 0 && wire <= Content(seal, Queue()) && FromHead(Queue(), attempted, false)
      ensures (ok <==> old(CanHandOver(file))) && (ok ==> attempted == old(Next(file)))
    {
      assert sends[sendHead] == Queue()[0];
      wire, attempted := [], 0;
      ok := Stage(!file.Unreadable?);
      if ok {
        var head := sends[sendHead];
        attempted, wire := |head.data| - head.offset, Unsent(head);
        StagedIsHead(seal, Queue());
      }
    }

    /** The socket took `n` of the bytes it was handed. */
    method Accept(ghost wire: seq<Byte>, n: nat, fromFile: bool)
      requires Valid() && !closed && 0 < n <= |wire| && wire <= Content(seal, Queue()) && FromHead(Queue(), n, fromFile)
      modifies `sends, `sendHead, `pendingBytes, `corkedBytes, `corkedPending, `charged, `fileBytes, `taken,
               engine`pendingTotal
      ensures Valid() && taken == old(taken) + wire[..n]
      ensures engine.pendingTotal - charged == old(engine.pendingTotal - charged)
      ensures Content(seal, Queue()) == old(Content(seal, Queue()))[n..]
    {
      ghost var before := Queue();
      MemoryBounds(before);
      Consume(n, fromFile);
      WireTakes(seal, taken, before, Queue(), wire, n, fromFile);
      taken := taken + wire[..n];
      Uncount(n, fromFile);
    }

    /** Bytes the socket took are no longer counted, those of a file with the files. */
    method Uncount(n: nat, fromFile: bool)
      requires n > 0 && 0 <= charged <= pendingBytes && 0 <= corkedBytes
      requires n <= if fromFile then fileBytes else pendingBytes + corkedBytes
      modifies `pendingBytes, `corkedBytes, `corkedPending, `charged, `fileBytes, engine`pendingTotal
      ensures corkedBytes == 0 && corkedPending - corkedBytes == old(corkedPending - corkedBytes)
      ensures pendingBytes == old(pendingBytes + corkedBytes) - (if fromFile then 0 else n)
      ensures fileBytes == old(fileBytes) - (if fromFile then n else 0) && 0 <= charged <= pendingBytes
      ensures engine.pendingTotal - charged == old(engine.pendingTotal - charged)
    {
      if fromFile {
        fileBytes := Max(fileBytes - n, 0);
        Fold();
      } else {
        SubPending(n);
      }
    }

    /** The end of a flush that sent all there was. */
    method Finish()
      requires Valid() && sendHead == |sends|
      modifies `sends, `sendHead, `slots, `flushing, `pendingBytes, `corkedBytes, `corkedPending
      ensures Valid() && Queue() == [] && !flushing && corkedBytes == 0
    {
      sends, sendHead, slots, flushing := [], 0, 0, false;
      Fold();
    }

    /** One write of a flush: whether it took anything, and then whether it was short. */
    method FlushWrite(w: Sys, file: FileRead) returns (ok: bool, n: nat, short: bool)
      requires Valid() && !closed && sendHead < |sends|
      modifies `sends, `sendHead, `pendingBytes, `corkedBytes, `corkedPending, `charged, `fileBytes, `taken,
               engine`pendingTotal
      ensures Valid() && engine.pendingTotal - charged == old(engine.pendingTotal - charged)
      ensures |taken| == |old(taken)| + n && old(taken) <= taken
      ensures (ok <==> old(CanHandOver(file)) && !w.Fails?) && n == old(Goes(w, file))
      ensures ok ==> (n > 0 <==> w.Takes?)
      ensures (short <==> old(FillsUp(w, file))) && (short || n == 0 ==> Queue() != [])
    {
      var read, wire, attempted, fromFile := Attempt(file);
      if !read || !w.Takes? {
        return read && w.WouldBlock?, 0, false;
      }
      ok := true;
      n := Taken(w, attempted);
      // A short count of sendfile's does not say the socket is full.
      short := n < attempted && !(fromFile && file.Sendfile?);
      Accept(wire, n, fromFile);
      StillQueued(seal, Queue());
    }

    /** One turn of flushLocked's loop, which gives the lock up between two writes. */
    method FlushTurn(w: Sys, file: FileRead) returns (r: FlushResult)
      requires Valid() && flushing
      modifies `sends, `sendHead, `slots, `flushing, `pendingBytes, `corkedBytes, `corkedPending, `charged, `fileBytes,
               `taken, engine`pendingTotal
      ensures Valid() && engine.pendingTotal - charged == old(engine.pendingTotal - charged)
      ensures old(taken) <= taken && (flushing <==> r == Yielded) && r != Busy
      ensures r == Drained ==> Queue() == [] && pendingBytes == corkedBytes == charged == 0
      ensures |taken| == |old(taken)| + old(Goes(w, file)) && (r == Drained <==> Queue() == [])
      ensures old(Queue()) != [] && w.Takes? && !file.Unreadable? && limit <= 0 ==> old(taken) < taken
      ensures r in {Short, Yielded} ==> Queue() != [] && old(taken) < taken
      ensures r in {Short, Blocked} ==> Queue() != [] && corkedBytes == 0 && charged == pendingBytes
      ensures (r == Short <==> old(FillsUp(w, file))) && (!closed ==> (r == Drained <==> taken == accepted))
      ensures r == Blocked <==> old(Queue() != [] && CanHandOver(file)) && w.WouldBlock?
      ensures r == Failed <==> old(Queue() != [] && (w.Fails? || !CanHandOver(file)))
      ensures r == Failed ==> w.Fails? || file.Unreadable? || limit > 0
    {
      if sendHead == |sends| {
        Finish();
        return Drained;
      }
      var ok, n, short := FlushWrite(w, file);
      r := AfterWrite(ok, n, short);
      QueuedHasBytes(seal, Queue());
    }

    /** The flush goes on after a write that was taken whole, unless that was all there was. */
    method AfterWrite(ok: bool, n: nat, short: bool) returns (r: FlushResult)
      requires Valid() && flushing && (!ok ==> n == 0) && (short || n == 0 ==> Queue() != [])
      modifies `sends, `sendHead, `slots, `flushing, `pendingBytes, `corkedBytes, `corkedPending, `charged,
               engine`pendingTotal
      ensures Valid() && engine.pendingTotal - charged == old(engine.pendingTotal - charged) && Queue() == old(Queue())
      ensures r == if n > 0 && !short then (if Queue() == [] then Drained else Yielded)
                   else if !ok then Failed else if short then Short else Blocked
      ensures (flushing <==> r == Yielded) && (r == Drained ==> pendingBytes == corkedBytes == charged == 0)
      ensures r in {Short, Blocked} ==> corkedBytes == 0 && charged == pendingBytes
    {
      if n > 0 && !short {
        if sendHead != |sends| {
          return Yielded;
        }
        Finish();
        return Drained;
      }
      r := EndTurn(ok, short);
    }

    /** The flush gives up: the write failed, or the socket has no room for more. */
    method EndTurn(ok: bool, short: bool) returns (r: FlushResult)
      requires Valid() && (ok ==> Queue() != [])
      modifies `flushing, `pendingBytes, `corkedBytes, `corkedPending, `charged, engine`pendingTotal
      ensures Valid() && engine.pendingTotal - charged == old(engine.pendingTotal - charged) && !flushing
      ensures r == if !ok then Failed else if short then Short else Blocked
      ensures ok ==> corkedBytes == 0 && charged == pendingBytes
    {
      flushing := false;
      if !ok {
        return Failed;
      }
      Charge();
      return if short then Short else Blocked;
    }

    /** flushLocked, up to where it first gives up the lock. */
    method Flush(w: Sys, file: FileRead) returns (r: FlushResult)
      requires Valid()
      modifies `sends, `sendHead, `slots, `flushing, `pendingBytes, `corkedBytes, `corkedPending, `charged, `fileBytes,
               `taken, engine`pendingTotal
      ensures Valid() && engine.pendingTotal - charged == old(engine.pendingTotal - charged)
      ensures old(taken) <= taken
      ensures old(closing || closed) ==> r == Failed && taken == old(taken) && Queue() == old(Queue())
      ensures r == Busy <==> old(flushing && !closing && !closed)
      ensures r == Busy ==> taken == old(taken) && Queue() == old(Queue()) && charged == pendingBytes
      ensures r == Drained ==> Queue() == [] && pendingBytes == corkedBytes == charged == 0
      ensures old(!closing && !closed && !flushing) ==>
                && |taken| == |old(taken)| + old(Goes(w, file)) && (r == Drained <==> Queue() == [])
                && (r == Short <==> old(FillsUp(w, file)))
                && (r == Blocked <==> old(Queue() != [] && CanHandOver(file)) && w.WouldBlock?)
                && (r == Failed <==> old(Queue() != [] && (w.Fails? || !CanHandOver(file))))
      ensures old(!closing && !closed && !flushing && Queue() != []) && w.Takes? && !file.Unreadable? && limit <= 0 ==>
                old(taken) < taken
    {
      if closing || closed {
        return Failed;
      }
      if flushing {
        Charge();
        return Busy;
      }
      r := FlushNow(w, file);
    }

    /** Where nobody else is flushing. */
    method FlushNow(w: Sys, file: FileRead) returns (r: FlushResult)
      requires Valid() && !closing && !closed && !flushing
      modifies `sends, `sendHead, `slots, `flushing, `pendingBytes, `corkedBytes, `corkedPending, `charged, `fileBytes,
               `taken, engine`pendingTotal
      ensures Valid() && engine.pendingTotal - charged == old(engine.pendingTotal - charged)
      ensures old(taken) <= taken && r != Busy
      ensures r == Drained ==> Queue() == [] && pendingBytes == corkedBytes == charged == 0
      ensures |taken| == |old(taken)| + old(Goes(w, file)) && (r == Drained <==> Queue() == [])
      ensures r == Short <==> old(FillsUp(w, file))
      ensures r == Blocked <==> old(Queue() != [] && CanHandOver(file)) && w.WouldBlock?
      ensures r == Failed <==> old(Queue() != [] && (w.Fails? || !CanHandOver(file)))
      ensures old(Queue() != []) && w.Takes? && !file.Unreadable? && limit <= 0 ==> old(taken) < taken
    {
      flushing := true;
      r := FlushTurn(w, file);
    }

    /** uncork: the cork comes off, and what it held goes out. */
    method Uncork(w: Sys, file: FileRead) returns (r: FlushResult)
      requires Valid()
      modifies `sends, `sendHead, `slots, `flushing, `pendingBytes, `corkedBytes, `corkedPending, `charged, `fileBytes,
               `taken, `corked, engine`pendingTotal
      ensures Valid() && engine.pendingTotal - charged == old(engine.pendingTotal - charged)
      ensures old(taken) <= taken && !corked && (r == Drained ==> corkedBytes == 0)
      ensures !old(corked) || old(Queue()) == [] ==> r == Drained && taken == old(taken) && Queue() == old(Queue())
      ensures old(corked) && old(Queue()) != [] && r == Drained ==> Queue() == [] && charged == 0
      ensures old(corked && !closing && !closed && !flushing && Queue() != []) ==>
                && |taken| == |old(taken)| + old(Goes(w, file)) && (r == Drained <==> Queue() == [])
                && (r == Short <==> old(FillsUp(w, file)))
                && (r == Blocked <==> old(CanHandOver(file)) && w.WouldBlock?)
                && (r == Failed <==> w.Fails? || !old(CanHandOver(file)))
                && (w.Takes? && !file.Unreadable? && limit <= 0 ==> old(taken) < taken)
    {
      var wasCorked := corked;
      LetGo();
      if !wasCorked || sendHead == |sends| {
        return Drained;
      }
      assert Goes(w, file) == old(Goes(w, file)) && FillsUp(w, file) == old(FillsUp(w, file));
      assert CanHandOver(file) == old(CanHandOver(file));
      r := Flush(w, file);
    }

    /** The cork comes off, and what it held counts as pending. */
    method LetGo()
      requires Valid()
      modifies `corked, `corkedBytes, `corkedPending, `pendingBytes
      ensures Valid() && !corked && corkedBytes == 0
    {
      corked := false;
      Fold();
    }

    // ---- Closing.

    /** releaseItemLocked, over the items left. */
    method DropFiles()
      requires Shape() && fileBytes == Files(Queue())
      modifies `fileBytes
      ensures fileBytes == 0
    {
      var i := sendHead;
      while i < |sends|
        invariant sendHead <= i <= |sends| && fileBytes == Files(sends[i..])
      {
        assert sends[i..][1..] == sends[i + 1..];
        if sends[i].file.Some? && sends[i].file.value.rest != [] {
          fileBytes := Max(fileBytes - |sends[i].file.value.rest|, 0);
        }
        i := i + 1;
      }
    }

    /** markClosedLocked: the queue goes, and its share of the engine's total with it. */
    method MarkClosed()
      requires Valid()
      modifies this, engine`pendingTotal
      ensures Valid() && closed && charged == 0 && Queue() == []
      ensures engine.pendingTotal == old(engine.pendingTotal) - old(charged)
      ensures taken == old(taken) && accepted == old(accepted)
    {
      PrefixOf(taken, Content(seal, Queue()), accepted);
      DropFiles();
      ClearQueue();
      Discharge();
    }

    method ClearQueue()
      modifies `closed, `closing, `sends, `sendHead, `slots, `pendingBytes, `corkedBytes
      ensures closed && closing && sends == [] && sendHead == slots == 0 && pendingBytes == corkedBytes == 0
    {
      closed, closing := true, true;
      sends, sendHead, slots := [], 0, 0;
      pendingBytes, corkedBytes := 0, 0;
    }

    /** What the connection has charged goes back to the engine. */
    method Discharge()
      requires charged >= 0
      modifies `charged, engine`pendingTotal
      ensures charged == 0 && engine.pendingTotal == old(engine.pendingTotal) - old(charged)
    {
      if charged > 0 {
        engine.pendingTotal := engine.pendingTotal - charged;
        charged := 0;
      }
    }
  }

  /** What went at once, and what was queued after it, is what the send accepted. */
  lemma AcceptedInAll(before: seq<Byte>, data: seq<Byte>, sent: nat, r: SendResult)
    requires sent <= |data| && (r == Queues || r == OverLimit(sent))
    ensures before + data[..sent] + (if r.Queues? then data[sent..] else []) == before + AcceptedOf(r, data)
  {
    Rejoin(before, data, sent);
    JoinNone(before + data[..sent], []);
  }

  lemma PrefixOf(taken: seq<Byte>, content: seq<Byte>, accepted: seq<Byte>)
    ensures taken + content == accepted ==> taken <= accepted
  {
  }

  /** What joins the queue joins what was accepted. */
  lemma Joins(taken: seq<Byte>, content: seq<Byte>, accepted: seq<Byte>, more: seq<Byte>)
    requires taken + content == accepted
    ensures taken + (content + more) == accepted + more
  {
  }
}
