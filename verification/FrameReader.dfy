/** The receiving side of an arpc connection: a parser that takes the stream in
    whatever pieces it arrives in, and the encoder writing into a buffer. */
module FrameReader {
  import opened Basics
  import opened Frames

  const RECV_CHUNK := 65536

  /** What a handler's Malloc gives for a length: at least that capacity. */
  type Allocator = nat -> nat

  ghost predicate Allocates(capOf: Allocator) { forall n :: capOf(n) >= n }

  /** copy: as much of `src` as fits in `dst[at..end]`. */
  method Copy(dst: array<Byte>, at: nat, end: nat, src: seq<Byte>) returns (n: nat)
    requires at <= end <= dst.Length
    modifies dst
    ensures n == Min(end - at, |src|)
    ensures dst[..at + n] == old(dst[..at]) + src[..n] && dst[at + n..] == old(dst[at + n..])
  {
    n := Min(end - at, |src|);
    for i := 0 to n
      invariant dst[..at + i] == old(dst[..at]) + src[..i] && dst[at + i..] == old(dst[at + i..])
    {
      assert dst[at + i..][1..] == dst[at + i + 1..];
      dst[at + i] := src[i];
      assert dst[..at + i + 1] == dst[..at + i] + [src[i]];
      assert src[..i + 1] == src[..i] + [src[i]];
    }
  }

  class ConnState {
    const maxBodyLen: int
    const capOf: Allocator
    const head: array<Byte>
    var headLen: nat
    /** Whether a message is being received: then `buffer[..len]` is its Buffer,
        of which `filled` bytes have arrived, and `need` is its whole length. */
    var receiving: bool
    var buffer: array<Byte>
    var len: nat
    var filled: nat
    var need: nat
    var tooLarge: bool
    var dispatched: seq<seq<Byte>>

    constructor (maxBodyLen: int, capOf: Allocator)
      requires Allocates(capOf)
      ensures Valid() && Pending() == [] && dispatched == [] && !tooLarge
      ensures this.maxBodyLen == maxBodyLen && fresh(head) && fresh(buffer)
    {
      this.maxBodyLen, this.capOf := maxBodyLen, capOf;
      head := new Byte[HEAD_LEN];
      headLen, receiving, len, filled, need, tooLarge, dispatched := 0, false, 0, 0, 0, false, [];
      buffer := new Byte[0];
    }

    ghost predicate Valid()
      reads this, head, buffer
    {
      && Allocates(capOf) && head.Length == HEAD_LEN && head != buffer
      && (!receiving ==> headLen < HEAD_LEN)
      && (receiving ==> headLen == 0 && Receiving())
    }

    ghost predicate Receiving()
      reads this, buffer
    {
      && HEAD_LEN <= filled <= len <= buffer.Length && filled < need && len <= need
      && need == HEAD_LEN + BodyLen(buffer[..filled]) && !TooLarge(need - HEAD_LEN, maxBodyLen)
      && (Plain() ==> len == buffer.Length)
    }

    /** With `inHand` bytes that have arrived but are not in it yet, the buffer is
        no more than the least chunk, or twice what has arrived. */
    ghost predicate Frugal(inHand: nat)
      reads this
    {
      receiving && Plain() ==> len <= Max(HEAD_LEN + RECV_CHUNK, 2 * (filled + inHand))
    }

    /** Allocation that gives no more than was asked for. */
    ghost predicate Plain()
    {
      forall n: nat :: capOf(n) == n
    }

    /** What has arrived of the message under way. */
    ghost function Pending(): (r: seq<Byte>)
      reads this, head, buffer
      requires Valid()
    {
      if receiving then buffer[..filled] else head[..headLen]
    }

    /** What it has of a message is never a whole one. */
    lemma PendingIsPartial()
      requires Valid()
      ensures Parse(Pending(), maxBodyLen) == Parsed([], Pending(), false)
    {
    }

    /** The header of the next message, once all of it has arrived. */
    method TakeHead(data: seq<Byte>) returns (whole: bool, h: seq<Byte>, rest: seq<Byte>)
      requires Valid() && !receiving && data != []
      modifies `headLen, head
      ensures Valid() && |rest| < |data|
      ensures whole ==> headLen == 0 && |h| == HEAD_LEN && h + rest == old(Pending()) + data
      ensures !whole ==> rest == [] && Pending() == old(Pending()) + data
    {
      if headLen == 0 && |data| >= HEAD_LEN {
        return true, data[..HEAD_LEN], data[HEAD_LEN..];
      }
      var n := Copy(head, headLen, HEAD_LEN, data);
      headLen := headLen + n;
      rest := data[n..];
      assert data[..n] + rest == data;
      if headLen < HEAD_LEN {
        return false, [], [];
      }
      h, headLen, whole := head[..], 0, true;
      assert h == head[..HEAD_LEN];
      Rejoin(old(head[..headLen]), data, n);
    }

    /** A header within the limit starts a message, which is over at once if it has no body. */
    method Begin(h: seq<Byte>, rest: nat) returns (over: bool)
      requires Valid() && !receiving && headLen == 0 && |h| == HEAD_LEN && !TooLarge(BodyLen(h), maxBodyLen)
      modifies `receiving, `buffer, `len, `filled, `need, `dispatched
      ensures Valid() && fresh(buffer) && over == (BodyLen(h) == 0)
      ensures over ==> !receiving && dispatched == old(dispatched) + [h]
      ensures !over ==> receiving && dispatched == old(dispatched) && Pending() == h && filled < len
      ensures Frugal(rest)
    {
      var bodyLen := BodyLen(h);
      var size := Min(HEAD_LEN + bodyLen, HEAD_LEN + Max(rest, RECV_CHUNK));
      buffer := new Byte[capOf(size)];
      len := size;
      var _ := Copy(buffer, 0, len, h);
      assert buffer[..HEAD_LEN] == h;
      over := bodyLen == 0;
      if over {
        dispatched := dispatched + [buffer[..len]];
      } else {
        receiving, filled, need := true, HEAD_LEN, HEAD_LEN + bodyLen;
      }
    }

    /** Room for more of the body, `n` bytes of which have arrived. */
    method Grow(n: nat)
      requires Valid() && receiving && filled == len && n > 0
      modifies `buffer, `len
      ensures Valid() && (fresh(buffer) || buffer == old(buffer)) && Pending() == old(Pending()) && filled < len
      ensures Frugal(n)
    {
      var c := Min(need, buffer.Length);
      if c > len {
        len := c;
        return;
      }
      var size := Min(need, Max(filled + n, 2 * len));
      var grown := new Byte[capOf(size)];
      var _ := Copy(grown, 0, size, buffer[..filled]);
      assert grown[..filled] == buffer[..filled];
      buffer, len := grown, size;
    }

    /** As much of the data as there is room for joins the buffer, which is made larger if it is full. */
    method FillBuffer(data: seq<Byte>) returns (n: nat)
      requires Valid() && receiving && (data == [] ==> filled < len) && Frugal(|data|)
      modifies `buffer, `len, `filled, buffer
      ensures (fresh(buffer) || buffer == old(buffer)) && buffer != head && (Plain() ==> len == buffer.Length)
      ensures n <= |data| && (n == |data| || filled == len) && (data != [] ==> n > 0)
      ensures old(filled) + n == filled <= len <= buffer.Length && len <= need
      ensures buffer[..filled] == old(buffer[..filled]) + data[..n]
      ensures Plain() ==> len <= Max(HEAD_LEN + RECV_CHUNK, 2 * (old(filled) + |data|))
    {
      if filled == len {
        Grow(|data|);
      }
      n := Copy(buffer, filled, len, data);
      filled := filled + n;
    }

    /** More of the body: what fits the buffer, and the message goes once it is whole. */
    method Fill(data: seq<Byte>) returns (over: bool, rest: seq<Byte>)
      requires Valid() && receiving && (data == [] ==> filled < len) && Frugal(|data|)
      modifies `receiving, `buffer, `len, `filled, `dispatched, buffer
      ensures Valid() && (fresh(buffer) || buffer == old(buffer)) && Frugal(|rest|)
      ensures |rest| < |data| || (data == [] == rest && !over)
      ensures var all := old(Pending()) + data;
              if over then
                && !receiving && headLen == 0 && |all| >= need && need == HEAD_LEN + BodyLen(all)
                && dispatched == old(dispatched) + [all[..need]] && rest == all[need..]
              else
                receiving && dispatched == old(dispatched) && Pending() + rest == all
    {
      ghost var before := Pending();
      var n := FillBuffer(data);
      rest := data[n..];
      Rejoin(before, data, n);
      SameHeader(before, data[..n]);
      SameHeader(before, data);
      over := filled >= need;
      if over {
        receiving := false;
        dispatched := dispatched + [buffer[..len]];
      }
    }

    /** The part of a pass before a body: `stop` says the pass ends with the header. */
    method Start(data: seq<Byte>) returns (stop: bool, rest: seq<Byte>)
      requires Valid() && !tooLarge && data != [] && !receiving
      modifies `headLen, `receiving, `buffer, `len, `filled, `need, `tooLarge, `dispatched, head
      ensures Valid() && (fresh(buffer) || buffer == old(buffer)) && |rest| < |data| && (tooLarge ==> stop)
      ensures tooLarge ==> dispatched == old(dispatched) && Parse(old(Pending()) + data, maxBodyLen).tooLarge
                           && Parse(old(Pending()) + data, maxBodyLen).messages == []
      ensures stop && !tooLarge ==>
                !receiving && OneTaken(old(Pending()) + data, maxBodyLen, old(dispatched), dispatched, Pending() + rest)
      ensures !stop ==> receiving && filled < len && dispatched == old(dispatched) && Frugal(|rest|)
                        && Pending() + rest == old(Pending()) + data
    {
      ghost var all := Pending() + data;
      var whole, h;
      whole, h, rest := TakeHead(data);
      if !whole {
        assert Pending() + [] == Pending();
        return true, rest;
      }
      SameHeader(h, rest);
      if TooLarge(BodyLen(h), maxBodyLen) {
        tooLarge := true;
        return true, rest;
      }
      stop := Begin(h, |rest|);
      if stop {
        assert all[..HEAD_LEN] == h && all[HEAD_LEN..] == rest;
        JoinNone(rest, Pending());
      }
    }

    /** One pass of feed's loop. It takes at least a byte, and dispatches at most the message the stream starts with. */
    method Pass(data: seq<Byte>) returns (rest: seq<Byte>)
      requires Valid() && !tooLarge && data != [] && Frugal(|data|)
      modifies this, head, buffer
      ensures Valid() && (fresh(buffer) || buffer == old(buffer)) && |rest| < |data|
      ensures tooLarge ==> dispatched == old(dispatched) && Parse(old(Pending()) + data, maxBodyLen).tooLarge
                           && Parse(old(Pending()) + data, maxBodyLen).messages == []
      ensures !tooLarge ==> Frugal(|rest|)
      ensures !tooLarge ==> OneTaken(old(Pending()) + data, maxBodyLen, old(dispatched), dispatched, Pending() + rest)
    {
      rest := data;
      if !receiving {
        var stop;
        stop, rest := Start(data);
        if stop {
          return;
        }
      }
      var over;
      over, rest := Fill(rest);
      if over {
        JoinNone(rest, Pending());
      }
    }

    /** feed: what was read is parsed as far as it goes. */
    method Feed(data: seq<Byte>)
      requires Valid() && !tooLarge && Frugal(0)
      modifies this, head, buffer
      ensures Valid() && (fresh(buffer) || buffer == old(buffer))
      ensures var p := Parse(old(Pending()) + data, maxBodyLen);
              && dispatched == old(dispatched) + p.messages && tooLarge == p.tooLarge
              && (!tooLarge ==> Pending() == p.rest && Frugal(0))
    {
      var rest := data;
      ghost var p := Parse(Pending() + data, maxBodyLen);
      while rest != []
        invariant Valid() && !tooLarge && (fresh(buffer) || buffer == old(buffer)) && Frugal(|rest|)
        invariant Towards(old(dispatched), p, dispatched, Parse(Pending() + rest, maxBodyLen))
        decreases |rest|
      {
        ghost var all, before := Pending() + rest, dispatched;
        rest := Pass(rest);
        if tooLarge {
          assert dispatched + [] == dispatched;
          return;
        }
        TakenTowards(all, maxBodyLen, before, dispatched, Pending() + rest);
      }
      PendingIsPartial();
      assert Pending() + [] == Pending() && dispatched + [] == dispatched;
    }

    /** However the stream is cut into reads, what is dispatched is what it holds. */
    method FeedAll(pieces: seq<seq<Byte>>)
      requires Valid() && !tooLarge && Frugal(0) && Pending() == []
      requires !Parse(Concat(pieces), maxBodyLen).tooLarge
      modifies this, head, buffer
      ensures Valid() && !tooLarge
      ensures var p := Parse(Concat(pieces), maxBodyLen);
              dispatched == old(dispatched) + p.messages && Pending() == p.rest && Frugal(0)
    {
      for i := 0 to |pieces|
        invariant Valid() && !tooLarge && Frugal(0) && (fresh(buffer) || buffer == old(buffer))
        invariant var p := Parse(Concat(pieces[..i]), maxBodyLen);
                  !p.tooLarge && dispatched == old(dispatched) + p.messages && Pending() == p.rest
      {
        NextPiece(pieces, i, maxBodyLen, old(dispatched));
        Feed(pieces[i]);
      }
      assert pieces[..|pieces|] == pieces;
    }
  }

  /** `now` dispatched and `left` to come are `p` on top of what was dispatched `before`. */
  ghost predicate Towards(before: seq<seq<Byte>>, p: Parsed, now: seq<seq<Byte>>, left: Parsed) {
    before + p.messages == now + left.messages && p.rest == left.rest && p.tooLarge == left.tooLarge
  }

  lemma ConcatNext(pieces: seq<seq<Byte>>, i: nat)
    requires i < |pieces|
    ensures Concat(pieces[..i + 1]) == Concat(pieces[..i]) + pieces[i]
    ensures Concat(pieces[..i + 1]) <= Concat(pieces)
    decreases |pieces| - i
  {
    assert pieces[..i + 1][..i] == pieces[..i];
    if i + 1 < |pieces| {
      ConcatNext(pieces, i + 1);
    } else {
      assert pieces[..i + 1] == pieces;
    }
  }

  /** Nothing is over the limit in the part of a stream that has arrived if nothing is in the whole. */
  lemma NoPrefixTooLarge(a: seq<Byte>, all: seq<Byte>, maxBodyLen: int)
    requires a <= all && !Parse(all, maxBodyLen).tooLarge
    ensures !Parse(a, maxBodyLen).tooLarge
    decreases |a|
  {
    if StartsWhole(a, maxBodyLen) {
      WholeStaysWhole(a, all[|a|..], maxBodyLen);
      assert a + all[|a|..] == all;
      var n := HEAD_LEN + BodyLen(a);
      NoPrefixTooLarge(a[n..], all[n..], maxBodyLen);
    } else if |a| >= HEAD_LEN {
      SameHeader(a, all[|a|..]);
      assert a + all[|a|..] == all;
    }
  }

  lemma NextPiece(pieces: seq<seq<Byte>>, i: nat, maxBodyLen: int, before: seq<seq<Byte>>)
    requires i < |pieces| && !Parse(Concat(pieces), maxBodyLen).tooLarge
    requires !Parse(Concat(pieces[..i]), maxBodyLen).tooLarge
    ensures var p := Parse(Concat(pieces[..i]), maxBodyLen);
            var q, next := Parse(p.rest + pieces[i], maxBodyLen), Parse(Concat(pieces[..i + 1]), maxBodyLen);
            && !q.tooLarge && !next.tooLarge && next.rest == q.rest
            && before + next.messages == before + p.messages + q.messages
  {
    ConcatNext(pieces, i);
    ParseConcat(Concat(pieces[..i]), pieces[i], maxBodyLen);
    NoPrefixTooLarge(Concat(pieces[..i + 1]), Concat(pieces), maxBodyLen);
  }

  /** Nothing was dispatched, or the message `all` starts with was. */
  ghost predicate OneTaken(all: seq<Byte>, maxBodyLen: int, before: seq<seq<Byte>>, now: seq<seq<Byte>>, left: seq<Byte>) {
    || (now == before && left == all)
    || (StartsWhole(all, maxBodyLen) && now == before + [all[..HEAD_LEN + BodyLen(all)]]
        && left == all[HEAD_LEN + BodyLen(all)..])
  }

  lemma TakenTowards(all: seq<Byte>, maxBodyLen: int, before: seq<seq<Byte>>, now: seq<seq<Byte>>, left: seq<Byte>)
    requires OneTaken(all, maxBodyLen, before, now, left)
    ensures Towards(before, Parse(all, maxBodyLen), now, Parse(left, maxBodyLen))
  {
    if now != before {
      var first, q := all[..HEAD_LEN + BodyLen(all)], Parse(left, maxBodyLen);
      assert before + ([first] + q.messages) == before + [first] + q.messages;
    }
  }

  lemma SameHeader(a: seq<Byte>, b: seq<Byte>)
    requires |a| >= HEAD_LEN
    ensures BodyLen(a + b) == BodyLen(a)
  {
    assert (a + b)[0..4] == a[0..4];
  }

  // ---- Building a message, and the whole way from one side to the other.

  /** binary.LittleEndian's Put, for a number of `k` bytes. */
  method PutNumber(b: array<Byte>, at: nat, n: nat, k: nat)
    requires at + k <= b.Length
    modifies b
    ensures b[at..at + k] == ToLittleEndian(n, k)
    ensures forall i :: 0 <= i < at || at + k <= i < b.Length ==> b[i] == old(b[i])
  {
    ghost var before := b[..];
    var _ := Copy(b, at, at + k, ToLittleEndian(n, k));
    assert b[at..at + k] == b[..at + k][at..];
    assert forall i :: 0 <= i < at ==> b[i] == b[..at + k][i] == before[..at][i];
    assert forall i :: at + k <= i < b.Length ==> b[i] == b[at + k..][i - at - k] == before[i];
  }

  /** The fixed part of a header, [0, 16). */
  method PutFixed(b: array<Byte>, h: Header, dataLen: nat)
    requires |h.name| <= MAX_METHOD_LEN && HEAD_LEN <= b.Length
    modifies b
    ensures b[..HEAD_LEN] ==
            ToLittleEndian(|h.name| + dataLen, 4) + [0, h.cmd, h.flags, |h.name| as Byte] + ToLittleEndian(h.seqNo, 8)
    ensures b[HEAD_LEN..] == old(b[HEAD_LEN..])
  {
    ghost var body := |h.name| + dataLen;
    PutNumber(b, 0, |h.name| + dataLen, 4);
    b[4], b[5], b[6], b[7] := 0, h.cmd, h.flags, |h.name| as Byte;
    assert b[..4] == ToLittleEndian(body, 4);
    PutNumber(b, 8, h.seqNo, 8);
    assert b[..HEAD_LEN] == b[..4] + [b[4], b[5], b[6], b[7]] + b[8..16];
  }

  /** header.put. */
  method Put(b: array<Byte>, h: Header, dataLen: nat)
    requires |h.name| <= MAX_METHOD_LEN && HEAD_LEN + |h.name| <= b.Length
    modifies b
    ensures b[..HEAD_LEN + |h.name|] == Head(h, dataLen)
    ensures b[HEAD_LEN + |h.name|..] == old(b[HEAD_LEN + |h.name|..])
  {
    PutFixed(b, h, dataLen);
    assert b[HEAD_LEN + |h.name|..] == b[HEAD_LEN..][|h.name|..] == old(b[HEAD_LEN..])[|h.name|..];
    var _ := Copy(b, HEAD_LEN, b.Length, h.name);
  }

  /** newMessage: the whole of a message in a buffer of its own. */
  method NewMessage(capOf: Allocator, h: Header, data: seq<Byte>) returns (buffer: array<Byte>, len: nat)
    requires Allocates(capOf) && |h.name| <= MAX_METHOD_LEN
    ensures fresh(buffer) && len <= buffer.Length && buffer[..len] == Encode(h, data)
  {
    len := HEAD_LEN + |h.name| + |data|;
    buffer := new Byte[capOf(len)];
    Put(buffer, h, |data|);
    var n := Copy(buffer, HEAD_LEN + |h.name|, len, data);
    assert data[..n] == data;
  }

  /** Messages sent on one side and read on the other, in any pieces, arrive as they were sent. */
  method Deliver(sent: seq<Sent>, pieces: seq<seq<Byte>>, maxBodyLen: int, capOf: Allocator) returns (st: ConnState)
    requires Allocates(capOf) && AllSendable(sent, maxBodyLen)
    requires Concat(pieces) == Concat(Encodings(sent, maxBodyLen))
    ensures st.Valid() && st.Pending() == [] && st.dispatched == Encodings(sent, maxBodyLen)
    ensures forall i :: 0 <= i < |sent| ==> Carries(st.dispatched[i], sent[i].header, sent[i].payload)
  {
    st := new ConnState(maxBodyLen, capOf);
    ParseUndoesEncode(sent, maxBodyLen);
    st.FeedAll(pieces);
    EncodingsCarry(sent, maxBodyLen);
  }

  lemma EncodingsCarry(sent: seq<Sent>, maxBodyLen: int)
    requires AllSendable(sent, maxBodyLen)
    ensures forall i :: 0 <= i < |sent| ==>
              Carries(Encodings(sent, maxBodyLen)[i], sent[i].header, sent[i].payload)
  {
    forall i | 0 <= i < |sent|
      ensures Carries(Encodings(sent, maxBodyLen)[i], sent[i].header, sent[i].payload)
    {
      AccessorsUndoEncode(sent[i].header, sent[i].payload);
    }
  }
}
