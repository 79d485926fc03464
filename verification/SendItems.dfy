/** The items of a connection's send queue, the bytes they stand for, and how
    much of those is in memory and how much still in files. */
module SendItems {
  import opened Basics

  type Sealer = seq<Byte> -> seq<Byte>

  /** What is left to send of a file: its bytes, and whether it has a FileSealer. */
  datatype FileSegment = FileSegment(rest: seq<Byte>, sealed: bool)

  /** `room` is the capacity of `data`'s array; an item with a file holds in `data`
      the sealed chunk staged from it, if one is. */
  datatype Item = Item(data: seq<Byte>, offset: nat, room: nat, pooled: bool, record: nat, file: Option<FileSegment>)

  /** A drained item, which has surrendered its buffer. */
  const CLEARED := Item([], 0, 0, false, 0, None)

  const SEND_FILE_CHUNK := 65536
  const MAX_SEND_FILE_CALL := 1073741824
  const MAX_WRITEV_ITEMS := 64
  const KERNEL_RECORD_SIZE := 16384

  /** A sealer turns a chunk with bytes in it into sealed bytes. */
  ghost predicate Seals(seal: Sealer) { forall plain :: plain != [] ==> seal(plain) != [] }

  /** An item that is queued: it has something left to send. */
  predicate Live(it: Item) {
    && it.offset <= |it.data|
    && (it.pooled ==> |it.data| <= it.room)
    && match it.file
       case None => it.offset < |it.data|
       case Some(f) =>
         && !it.pooled && it.record == 0
         && (it.data == [] ==> f.rest != [])
         && (it.data != [] ==> f.sealed && it.offset < |it.data|)
  }

  predicate AllLive(items: seq<Item>) { forall i :: 0 <= i < |items| ==> Live(items[i]) }

  function SealedBytes(seal: Sealer, rest: seq<Byte>): seq<Byte>
    decreases |rest|
  {
    if rest == [] then [] else
    var n := Min(|rest|, SEND_FILE_CHUNK);
    seal(rest[..n]) + SealedBytes(seal, rest[n..])
  }

  function FileBytes(seal: Sealer, f: FileSegment): seq<Byte> {
    if f.sealed then SealedBytes(seal, f.rest) else f.rest
  }

  /** The bytes the item still puts on the wire. */
  function Bytes(seal: Sealer, it: Item): seq<Byte>
    requires it.offset <= |it.data|
  {
    it.data[it.offset..] + (if it.file.Some? then FileBytes(seal, it.file.value) else [])
  }

  function Content(seal: Sealer, items: seq<Item>): seq<Byte>
    requires AllLive(items)
  {
    if items == [] then [] else Bytes(seal, items[0]) + Content(seal, items[1..])
  }

  function InMemory(it: Item): int { |it.data| - it.offset }

  function InFile(it: Item): nat { if it.file.Some? then |it.file.value.rest| else 0 }

  function Memory(items: seq<Item>): int { if items == [] then 0 else InMemory(items[0]) + Memory(items[1..]) }

  function Files(items: seq<Item>): nat { if items == [] then 0 else InFile(items[0]) + Files(items[1..]) }

  /** How much one write may take from memory: whole items, up to and with the chunk staged of the first file. */
  function WritePrefix(items: seq<Item>): int {
    if items == [] then 0
    else InMemory(items[0]) + if items[0].file.Some? then 0 else WritePrefix(items[1..])
  }

  // ---- Appending to the queue.

  lemma {:induction false} ContentConcat(seal: Sealer, a: seq<Item>, b: seq<Item>)
    requires AllLive(a) && AllLive(b)
    ensures AllLive(a + b) && Content(seal, a + b) == Content(seal, a) + Content(seal, b)
    ensures Memory(a + b) == Memory(a) + Memory(b) && Files(a + b) == Files(a) + Files(b)
  {
    if a == [] {
      assert a + b == b;
    } else {
      assert (a + b)[1..] == a[1..] + b;
      ContentConcat(seal, a[1..], b);
      Regroup(Bytes(seal, a[0]), Content(seal, a[1..]), Content(seal, b));
    }
  }

  lemma AppendOne(seal: Sealer, a: seq<Item>, it: Item)
    requires AllLive(a) && Live(it)
    ensures AllLive(a + [it]) && Content(seal, a + [it]) == Content(seal, a) + Bytes(seal, it)
    ensures Memory(a + [it]) == Memory(a) + InMemory(it) && Files(a + [it]) == Files(a) + InFile(it)
  {
    ContentConcat(seal, a, [it]);
    assert Content(seal, [it]) == Bytes(seal, it) + Content(seal, []);
    assert [it][1..] == [];
  }

  /** Replacing the last item by one with more bytes at its end. */
  lemma GrowLast(seal: Sealer, a: seq<Item>, it: Item, more: seq<Byte>)
    requires a != [] && AllLive(a) && a[|a| - 1].file.None? && Live(it)
    requires it.file.None? && it.offset == a[|a| - 1].offset && it.data == a[|a| - 1].data + more
    ensures AllLive(a[|a| - 1 := it]) && Content(seal, a[|a| - 1 := it]) == Content(seal, a) + more
    ensures Memory(a[|a| - 1 := it]) == Memory(a) + |more| && Files(a[|a| - 1 := it]) == Files(a)
  {
    var init, last := a[..|a| - 1], a[|a| - 1];
    assert a == init + [last] && a[|a| - 1 := it] == init + [it];
    AppendOne(seal, init, last);
    AppendOne(seal, init, it);
    assert Bytes(seal, it) == Bytes(seal, last) + more;
  }

  /** `more` has joined the queue: as an item of its own, or in the buffer of the trailing item, if that is pooled, unsent
      and has the room. Nothing ahead of it has changed. */
  ghost predicate Extends(before: seq<Item>, after: seq<Item>, more: seq<Byte>) {
    || (exists room :: after == before + [Item(more, 0, room, true, 0, None)])
    || (before != [] && var tail := before[|before| - 1];
        && tail.pooled && tail.offset == 0 && |tail.data| + |more| <= tail.room
        && after == before[|before| - 1 := tail.(data := tail.data + more)])
  }

  // ---- Taking bytes off its head.

  /** Changing the head alone. */
  lemma ReplaceHead(seal: Sealer, a: seq<Item>, it: Item)
    requires a != [] && AllLive(a) && Live(it)
    ensures AllLive(a[0 := it]) && AllLive(a[1..])
    ensures Content(seal, a) == Bytes(seal, a[0]) + Content(seal, a[1..])
    ensures Content(seal, a[0 := it]) == Bytes(seal, it) + Content(seal, a[1..])
    ensures Memory(a[0 := it]) == Memory(a) - InMemory(a[0]) + InMemory(it)
    ensures Files(a[0 := it]) == Files(a) - InFile(a[0]) + InFile(it)
  {
    assert a[0 := it][1..] == a[1..];
  }

  /** `left` bytes that a write took from the head of `items`: from memory, or straight from a file. */
  predicate FromHead(items: seq<Item>, left: nat, fromFile: bool) {
    || left == 0
    || (fromFile && items != [] && items[0].data == [] && items[0].file.Some? && !items[0].file.value.sealed
        && left <= |items[0].file.value.rest|)
    || (!fromFile && left <= WritePrefix(items))
  }

  /** What `n` bytes taken off the head of `before` leave. */
  ghost predicate TakenOff(seal: Sealer, before: seq<Item>, after: seq<Item>, n: nat, fromFile: bool) {
    && AllLive(before) && AllLive(after) && n <= |Content(seal, before)|
    && Content(seal, after) == Content(seal, before)[n..]
    && Memory(after) == Memory(before) - (if fromFile then 0 else n)
    && Files(after) == Files(before) - (if fromFile then n else 0)
  }

  /** Of a write, `gone` bytes have come off the head of `before`, and `left` are still to. */
  ghost predicate Consuming(seal: Sealer, before: seq<Item>, now: seq<Item>, gone: nat, left: nat, fromFile: bool) {
    TakenOff(seal, before, now, gone, fromFile) && FromHead(now, left, fromFile)
  }

  lemma TakenOffNone(seal: Sealer, items: seq<Item>, fromFile: bool)
    requires AllLive(items)
    ensures TakenOff(seal, items, items, 0, fromFile)
  {
    assert Content(seal, items)[0..] == Content(seal, items);
  }

  lemma NothingFromNone(items: seq<Item>, left: nat, fromFile: bool)
    requires items == [] && FromHead(items, left, fromFile)
    ensures left == 0
  {
  }

  /** Where nothing is queued any more, nothing was left to come off. */
  lemma ConsumedAll(seal: Sealer, before: seq<Item>, now: seq<Item>, gone: nat, left: nat, fromFile: bool)
    requires Consuming(seal, before, now, gone, left, fromFile) && now == []
    ensures left == 0 && TakenOff(seal, before, now, gone + left, fromFile)
  {
    NothingFromNone(now, left, fromFile);
  }

  lemma TakenOffTwice(seal: Sealer, a: seq<Item>, b: seq<Item>, c: seq<Item>, m: nat, n: nat, fromFile: bool)
    requires TakenOff(seal, a, b, m, fromFile) && TakenOff(seal, b, c, n, fromFile)
    ensures TakenOff(seal, a, c, m + n, fromFile)
  {
    assert Content(seal, a)[m..][n..] == Content(seal, a)[m + n..];
  }

  /** One item more has been taken off. */
  lemma ConsumesOn(seal: Sealer, before: seq<Item>, now: seq<Item>, after: seq<Item>, gone: nat, took: nat, left: nat,
                   fromFile: bool)
    requires Consuming(seal, before, now, gone, left, fromFile) && TakenOff(seal, now, after, took, fromFile)
    requires took <= left
    ensures TakenOff(seal, before, after, gone + took, fromFile)
    ensures FromHead(after, left - took, fromFile) ==> Consuming(seal, before, after, gone + took, left - took, fromFile)
  {
    TakenOffTwice(seal, before, now, after, gone, took, fromFile);
  }

  /** The bytes a write handed over move from what is queued to what the socket took. */
  lemma WireTakes(seal: Sealer, taken: seq<Byte>, before: seq<Item>, after: seq<Item>, wire: seq<Byte>, n: nat,
                  fromFile: bool)
    requires TakenOff(seal, before, after, n, fromFile) && wire <= Content(seal, before) && n <= |wire|
    ensures taken + wire[..n] + Content(seal, after) == taken + Content(seal, before)
  {
    var content := Content(seal, before);
    assert wire[..n] == content[..n];
    Rejoin(taken, content, n);
  }

  /** A chunk of the sealed file at the head moves into memory, and the stream stays as it was. */
  lemma StageMoves(seal: Sealer, items: seq<Item>, want: nat)
    requires items != [] && AllLive(items) && Seals(seal) && items[0].data == []
    requires items[0].file.Some? && items[0].file.value.sealed
    requires want == Min(|items[0].file.value.rest|, SEND_FILE_CHUNK)
    ensures var f := items[0].file.value; var sealed := seal(f.rest[..want]);
            var it := items[0].(data := sealed, offset := 0, file := Some(f.(rest := f.rest[want..])));
            && Live(it) && AllLive(items[0 := it]) && Content(seal, items[0 := it]) == Content(seal, items)
            && Memory(items[0 := it]) == Memory(items) + |sealed| && Files(items[0 := it]) == Files(items) - want
  {
    var f := items[0].file.value;
    var it := items[0].(data := seal(f.rest[..want]), offset := 0, file := Some(f.(rest := f.rest[want..])));
    ReplaceHead(seal, items, it);
    assert Bytes(seal, it) == Bytes(seal, items[0]);
  }

  /** A queue with bytes to send has items in it. */
  lemma StillQueued(seal: Sealer, items: seq<Item>)
    requires AllLive(items)
    ensures Content(seal, items) != [] ==> items != []
  {
  }

  /** The head goes whole. */
  lemma PopTakes(seal: Sealer, items: seq<Item>, left: nat, fromFile: bool)
    requires items != [] && AllLive(items) && FromHead(items, left, fromFile)
    requires var it := items[0];
             if it.file.Some? && it.data == [] then left >= |it.file.value.rest|
             else left >= InMemory(it) && (it.file.Some? ==> it.file.value.rest == [])
    ensures var it := items[0];
            var n := if it.file.Some? && it.data == [] then |it.file.value.rest| else InMemory(it);
            n <= left && TakenOff(seal, items, items[1..], n, fromFile) && FromHead(items[1..], left - n, fromFile)
  {
    assert |Bytes(seal, items[0])| == if items[0].data == [] then |items[0].file.value.rest| else InMemory(items[0]);
  }

  /** Part of the head goes from memory. */
  lemma OffsetTakes(seal: Sealer, items: seq<Item>, left: nat, fromFile: bool)
    requires items != [] && AllLive(items) && FromHead(items, left, fromFile)
    requires items[0].data != [] && left < InMemory(items[0])
    ensures var it := items[0].(offset := items[0].offset + left);
            Live(it) && TakenOff(seal, items, items[0 := it], left, fromFile)
  {
    var it := items[0].(offset := items[0].offset + left);
    ReplaceHead(seal, items, it);
    assert Bytes(seal, items[0])[left..] == Bytes(seal, it);
  }

  /** A staged chunk goes whole, and the rest of its file stays. */
  lemma ChunkTakes(seal: Sealer, items: seq<Item>, left: nat, fromFile: bool)
    requires items != [] && AllLive(items) && FromHead(items, left, fromFile)
    requires items[0].data != [] && items[0].file.Some? && items[0].file.value.rest != [] && left >= InMemory(items[0])
    ensures var it := items[0].(data := [], offset := 0);
            Live(it) && TakenOff(seal, items, items[0 := it], left, fromFile)
  {
    var it := items[0].(data := [], offset := 0);
    ReplaceHead(seal, items, it);
    assert Bytes(seal, items[0])[left..] == Bytes(seal, it);
  }

  /** Part of a file goes straight from it, or none of it does. */
  lemma FileTakes(seal: Sealer, items: seq<Item>, left: nat, fromFile: bool)
    requires items != [] && AllLive(items) && FromHead(items, left, fromFile)
    requires items[0].data == [] && items[0].file.Some? && left < |items[0].file.value.rest|
    ensures var f := items[0].file.value;
            var it := items[0].(file := Some(f.(rest := f.rest[left..])));
            Live(it) && TakenOff(seal, items, items[0 := it], left, fromFile)
  {
    var f := items[0].file.value;
    var it := items[0].(file := Some(f.(rest := f.rest[left..])));
    assert left == 0 ==> f.rest[left..] == f.rest;
    ReplaceHead(seal, items, it);
    assert Bytes(seal, items[0])[left..] == Bytes(seal, it);
  }

  lemma {:induction false} MemoryBounds(items: seq<Item>)
    requires AllLive(items)
    ensures 0 <= WritePrefix(items) <= Memory(items)
    ensures items != [] ==> Memory(items) + Files(items) > 0
  {
    if items != [] {
      MemoryBounds(items[1..]);
    }
  }

  /** The bytes of a write are a prefix of the content. */
  lemma {:induction false} PrefixOfContent(seal: Sealer, items: seq<Item>)
    requires AllLive(items)
    ensures WritePrefix(items) <= |Content(seal, items)|
  {
    if items != [] {
      PrefixOfContent(seal, items[1..]);
    }
  }

  // ---- The buffers of one write.

  function Flatten(buffers: seq<seq<Byte>>): seq<Byte> {
    if buffers == [] then [] else buffers[0] + Flatten(buffers[1..])
  }

  lemma {:induction false} FlattenConcat(a: seq<seq<Byte>>, b: seq<seq<Byte>>)
    ensures Flatten(a + b) == Flatten(a) + Flatten(b)
  {
    if a == [] {
      assert a + b == b;
    } else {
      assert (a + b)[1..] == a[1..] + b;
      FlattenConcat(a[1..], b);
    }
  }

  lemma FlattenLast(a: seq<seq<Byte>>, last: seq<Byte>)
    ensures Flatten(a + [last]) == Flatten(a) + last
  {
    FlattenConcat(a, [last]);
    assert Flatten([last]) == last + Flatten([]) && [last][1..] == [];
  }

  lemma {:induction false} FlattenUpTo(buffers: seq<seq<Byte>>, i: nat)
    requires i < |buffers|
    ensures Flatten(buffers[..i + 1]) == Flatten(buffers[..i]) + buffers[i]
    ensures Flatten(buffers[..i + 1]) <= Flatten(buffers)
    ensures i + 1 == |buffers| ==> Flatten(buffers[..i + 1]) == Flatten(buffers)
  {
    assert buffers[..i + 1] == buffers[..i] + [buffers[i]];
    FlattenLast(buffers[..i], buffers[i]);
    assert buffers == buffers[..i + 1] + buffers[i + 1..];
    FlattenConcat(buffers[..i + 1], buffers[i + 1..]);
  }

  /** cutToRecords: the whole records before the last byte, which leave between one
      byte and one record. */
  method CutToRecords(buffers: seq<seq<Byte>>, n: nat) returns (cut: seq<seq<Byte>>, m: nat)
    requires n == |Flatten(buffers)| && n > KERNEL_RECORD_SIZE
    ensures m % KERNEL_RECORD_SIZE == 0 && 0 < m < n && 1 <= n - m <= KERNEL_RECORD_SIZE
    ensures Flatten(cut) == Flatten(buffers)[..m] && |cut| <= |buffers|
  {
    m := (n - 1) / KERNEL_RECORD_SIZE * KERNEL_RECORD_SIZE;
    var left, i := m, 0;
    assert buffers[..0] == [];
    while i < |buffers|
      invariant 0 <= i < |buffers| && left == m - |Flatten(buffers[..i])| && left > 0
    {
      FlattenUpTo(buffers, i);
      if |buffers[i]| >= left {
        cut := buffers[..i] + [buffers[i][..left]];
        FlattenLast(buffers[..i], buffers[i][..left]);
        assert Flatten(buffers)[..m] == Flatten(buffers[..i]) + buffers[i][..left];
        return;
      }
      left := left - |buffers[i]|;
      i := i + 1;
    }
    cut := buffers;
  }

  /** The plain items a write may take together: neither files nor records. */
  predicate Plain(it: Item) { it.file.None? && it.record == 0 }

  function Unsent(it: Item): seq<Byte>
    requires it.offset <= |it.data|
  {
    it.data[it.offset..]
  }

  /** What the first `k` items, all plain, put on the wire. */
  lemma {:induction false} PlainPrefix(seal: Sealer, items: seq<Item>, buffers: seq<seq<Byte>>)
    requires AllLive(items) && |buffers| <= |items|
    requires forall i :: 0 <= i < |buffers| ==> Plain(items[i]) && buffers[i] == Unsent(items[i])
    ensures |Flatten(buffers)| <= WritePrefix(items) && Flatten(buffers) <= Content(seal, items)
    ensures |buffers| <= |Flatten(buffers)|
  {
    if buffers == [] {
      MemoryBounds(items);
    } else {
      PlainPrefix(seal, items[1..], buffers[1..]);
      assert Bytes(seal, items[0]) == buffers[0];
    }
  }

  /** How many items at the head one write gathers: all of the plain ones there, but no more than `most`. */
  function PlainRun(items: seq<Item>, most: nat): (k: nat)
    ensures k <= most && k <= |items|
  {
    if most == 0 || items == [] || !Plain(items[0]) then 0 else 1 + PlainRun(items[1..], most - 1)
  }

  lemma {:induction false} PlainRunIs(items: seq<Item>, most: nat, k: nat)
    requires k <= most && k <= |items| && forall i :: 0 <= i < k ==> Plain(items[i])
    requires k < most && k < |items| ==> !Plain(items[k])
    ensures PlainRun(items, most) == k
  {
    if k > 0 {
      PlainRunIs(items[1..], most - 1, k - 1);
    }
  }

  lemma {:induction false} GatheredLength(items: seq<Item>, buffers: seq<seq<Byte>>)
    requires AllLive(items) && |buffers| <= |items|
    requires forall i :: 0 <= i < |buffers| ==> buffers[i] == Unsent(items[i])
    ensures |Flatten(buffers)| == Memory(items[..|buffers|])
  {
    if buffers != [] {
      GatheredLength(items[1..], buffers[1..]);
      assert items[..|buffers|][1..] == items[1..][..|buffers| - 1];
    }
  }

  /** The whole records before the last byte, where a write is cut to them. */
  function RecordCut(n: nat, cuts: bool): nat {
    if cuts && n > KERNEL_RECORD_SIZE then (n - 1) / KERNEL_RECORD_SIZE * KERNEL_RECORD_SIZE else n
  }

  /** It is the only multiple that leaves between one byte and one record. */
  lemma RecordCutIs(n: nat, m: nat)
    requires m % KERNEL_RECORD_SIZE == 0 && m < n <= m + KERNEL_RECORD_SIZE && n > KERNEL_RECORD_SIZE
    ensures RecordCut(n, true) == m
  {
  }

  lemma LiveHasBytes(seal: Sealer, it: Item)
    requires Live(it) && Seals(seal)
    ensures Bytes(seal, it) != []
  {
    if it.file.Some? && it.data == [] && it.file.value.sealed {
      var rest := it.file.value.rest;
      assert seal(rest[..Min(|rest|, SEND_FILE_CHUNK)]) != [];
    }
  }

  /** Something is queued exactly if bytes are. */
  lemma QueuedHasBytes(seal: Sealer, items: seq<Item>)
    requires AllLive(items) && Seals(seal)
    ensures items == [] <==> Content(seal, items) == []
  {
    if items != [] {
      LiveHasBytes(seal, items[0]);
    }
  }
}
