/** arpc's framing: the header, the encoder, and what a stream of bytes holds. */
module Frames {
  import opened Basics
  import opened Powers

  const HEAD_LEN := 16
  const MAX_METHOD_LEN := 127

  // ---- Little-endian numbers.

  function Pow256(k: nat): (r: nat)
    ensures r > 0
  {
    if k == 0 then 1 else 256 * Pow256(k - 1)
  }

  function ToLittleEndian(n: nat, k: nat): (r: seq<Byte>)
    ensures |r| == k
  {
    if k == 0 then [] else [(n % 256) as Byte] + ToLittleEndian(n / 256, k - 1)
  }

  function FromLittleEndian(b: seq<Byte>): (r: nat)
    ensures r < Pow256(|b|)
  {
    if b == [] then 0 else b[0] as nat + 256 * FromLittleEndian(b[1..])
  }

  lemma {:induction false} LittleEndianRoundTrip(n: nat, k: nat)
    requires n < Pow256(k)
    ensures FromLittleEndian(ToLittleEndian(n, k)) == n
  {
    if k > 0 {
      LittleEndianRoundTrip(n / 256, k - 1);
      assert ToLittleEndian(n, k)[1..] == ToLittleEndian(n / 256, k - 1);
    }
  }

  /** Byte by byte, the least first. */
  lemma {:induction false} LittleEndianAt(n: nat, k: nat, i: nat)
    requires i < k
    ensures ToLittleEndian(n, k)[i] as nat == n / Pow256(i) % 256
  {
    if i > 0 {
      LittleEndianAt(n / 256, k - 1, i - 1);
      DivideTwice(n, Pow256(i - 1));
    }
  }

  lemma DivideTwice(n: nat, m: nat)
    requires m > 0
    ensures n / 256 / m == n / (256 * m)
  {
    var q, r := n / 256, n % 256;
    var a, b := q / m, q % m;
    calc {
      n;
      256 * q + r;
      256 * (m * a + b) + r;
      a * (256 * m) + (256 * b + r);
    }
    assert 0 <= 256 * b + r < 256 * m;
    Quotient(n, a, 256 * m, 256 * b + r);
  }

  // ---- One message.

  datatype Header = Header(cmd: Byte, flags: Byte, name: seq<Byte>, seqNo: nat)

  /** What the sender may send: a checked method, a 64-bit sequence number, and a body that fits its field. */
  predicate Sendable(h: Header, payload: seq<Byte>) {
    && 1 <= |h.name| <= MAX_METHOD_LEN && h.seqNo < Pow256(8)
    && |h.name| + |payload| < Pow256(4)
  }

  /** The header and method, as header.put lays them out. */
  function Head(h: Header, payloadLen: nat): (r: seq<Byte>)
    requires |h.name| <= MAX_METHOD_LEN
    ensures |r| == HEAD_LEN + |h.name|
  {
    ToLittleEndian(|h.name| + payloadLen, 4) + [0, h.cmd, h.flags, |h.name| as Byte]
    + ToLittleEndian(h.seqNo, 8) + h.name
  }

  function Encode(h: Header, payload: seq<Byte>): (r: seq<Byte>)
    requires |h.name| <= MAX_METHOD_LEN
    ensures |r| == HEAD_LEN + |h.name| + |payload|
  {
    Head(h, |payload|) + payload
  }

  function BodyLen(m: seq<Byte>): nat requires |m| >= HEAD_LEN { FromLittleEndian(m[0..4]) }

  function Cmd(m: seq<Byte>): Byte requires |m| >= HEAD_LEN { m[5] % 64 }

  predicate IsStreamEOF(m: seq<Byte>) requires |m| >= HEAD_LEN { m[5] / 64 % 2 == 1 }

  predicate IsStreamLocal(m: seq<Byte>) requires |m| >= HEAD_LEN { m[5] / 128 == 1 }

  predicate IsError(m: seq<Byte>) requires |m| >= HEAD_LEN { m[6] % 2 == 1 }

  predicate IsAsync(m: seq<Byte>) requires |m| >= HEAD_LEN { m[6] / 2 % 2 == 1 }

  function MethodLen(m: seq<Byte>): nat requires |m| >= HEAD_LEN { m[7] as nat }

  function Seq(m: seq<Byte>): nat requires |m| >= HEAD_LEN { FromLittleEndian(m[8..16]) }

  function Method(m: seq<Byte>): seq<Byte>
    requires |m| >= HEAD_LEN && HEAD_LEN + MethodLen(m) <= |m|
  {
    m[HEAD_LEN..HEAD_LEN + MethodLen(m)]
  }

  function Data(m: seq<Byte>): seq<Byte>
    requires |m| >= HEAD_LEN && HEAD_LEN + MethodLen(m) <= |m|
  {
    m[HEAD_LEN + MethodLen(m)..]
  }

  /** A message whole, of exactly its length, whose accessors give all that was sent. */
  predicate Carries(m: seq<Byte>, h: Header, payload: seq<Byte>) {
    && |m| >= HEAD_LEN && |m| == HEAD_LEN + BodyLen(m)
    && BodyLen(m) == |h.name| + |payload| && Seq(m) == h.seqNo
    && MethodLen(m) == |h.name| && Method(m) == h.name && Data(m) == payload
    && Cmd(m) == h.cmd % 64 && (h.cmd < 64 ==> Cmd(m) == h.cmd)
    && (IsStreamEOF(m) <==> h.cmd / 64 % 2 == 1) && (IsStreamLocal(m) <==> h.cmd >= 128)
    && (IsError(m) <==> h.flags % 2 == 1) && (IsAsync(m) <==> h.flags / 2 % 2 == 1)
  }

  /** The accessors undo the encoder. */
  lemma AccessorsUndoEncode(h: Header, payload: seq<Byte>)
    requires Sendable(h, payload)
    ensures Carries(Encode(h, payload), h, payload)
  {
    var m := Encode(h, payload);
    LittleEndianRoundTrip(|h.name| + |payload|, 4);
    LittleEndianRoundTrip(h.seqNo, 8);
    assert m[0..4] == ToLittleEndian(|h.name| + |payload|, 4);
    assert m[8..16] == ToLittleEndian(h.seqNo, 8);
    assert m[HEAD_LEN..HEAD_LEN + |h.name|] == h.name;
    assert m[HEAD_LEN + |h.name|..] == payload;
  }

  /** Where each field is: the length of what follows the header, the command, the flags, the method's length and the
      sequence number, then the method. */
  lemma HeadIsLaidOut(h: Header, n: nat, i: nat)
    requires |h.name| <= MAX_METHOD_LEN
    ensures var m := Head(h, n);
            && (i < 4 ==> m[i] as nat == (|h.name| + n) / Pow256(i) % 256)
            && m[4] == 0 && m[5] == h.cmd && m[6] == h.flags && m[7] as nat == |h.name|
            && (i < 8 ==> m[8 + i] as nat == h.seqNo / Pow256(i) % 256) && m[16..] == h.name
  {
    if i < 4 {
      LittleEndianAt(|h.name| + n, 4, i);
    }
    if i < 8 {
      LittleEndianAt(h.seqNo, 8, i);
    }
  }

  // ---- A stream of them.

  /** A limit below zero is, as an unsigned number, no limit. */
  predicate TooLarge(bodyLen: nat, maxBodyLen: int) { maxBodyLen >= 0 && bodyLen > maxBodyLen }

  /** What a stream of bytes holds: its whole messages, what is left over, and
      whether the left-over starts with a header over the limit. */
  datatype Parsed = Parsed(messages: seq<seq<Byte>>, rest: seq<Byte>, tooLarge: bool)

  function Parse(b: seq<Byte>, maxBodyLen: int): (p: Parsed)
    ensures |p.rest| <= |b|
    decreases |b|
  {
    if |b| < HEAD_LEN then Parsed([], b, false)
    else if TooLarge(BodyLen(b), maxBodyLen) then Parsed([], b, true)
    else if |b| < HEAD_LEN + BodyLen(b) then Parsed([], b, false)
    else
      var n := HEAD_LEN + BodyLen(b);
      Then([b[..n]], Parse(b[n..], maxBodyLen))
  }

  /** A stream that starts with a header over the limit holds nothing that is handed on, and is told apart. */
  lemma OverLimitStops(b: seq<Byte>, maxBodyLen: nat)
    requires |b| >= HEAD_LEN
    ensures BodyLen(b) > maxBodyLen <==> Parse(b, maxBodyLen).tooLarge && Parse(b, maxBodyLen).messages == []
    ensures !Parse(b, -1).tooLarge || Parse(b, -1).messages != []
  {
  }

  function Then(first: seq<seq<Byte>>, p: Parsed): Parsed { p.(messages := first + p.messages) }

  /** The stream starts with a whole message within the limit. */
  predicate StartsWhole(b: seq<Byte>, maxBodyLen: int) {
    |b| >= HEAD_LEN && !TooLarge(BodyLen(b), maxBodyLen) && |b| >= HEAD_LEN + BodyLen(b)
  }

  lemma WholeStaysWhole(a: seq<Byte>, b: seq<Byte>, maxBodyLen: int)
    requires StartsWhole(a, maxBodyLen)
    ensures StartsWhole(a + b, maxBodyLen) && BodyLen(a + b) == BodyLen(a)
    ensures var n := HEAD_LEN + BodyLen(a); (a + b)[..n] == a[..n] && (a + b)[n..] == a[n..] + b
  {
    assert (a + b)[0..4] == a[0..4];
  }

  lemma ThenThen(m: seq<Byte>, ms: seq<seq<Byte>>, p: Parsed)
    ensures Then([m], Then(ms, p)) == Then([m] + ms, p)
  {
    assert [m] + (ms + p.messages) == [m] + ms + p.messages;
  }

  /** Parsing can stop anywhere and go on from what was left. */
  lemma {:induction false} ParseConcat(a: seq<Byte>, b: seq<Byte>, maxBodyLen: int)
    requires !Parse(a, maxBodyLen).tooLarge
    ensures var p := Parse(a, maxBodyLen);
            Parse(a + b, maxBodyLen) == Then(p.messages, Parse(p.rest + b, maxBodyLen))
    decreases |a|
  {
    var p := Parse(a, maxBodyLen);
    if StartsWhole(a, maxBodyLen) {
      var n := HEAD_LEN + BodyLen(a);
      WholeStaysWhole(a, b, maxBodyLen);
      ParseConcat(a[n..], b, maxBodyLen);
      var q := Parse(a[n..], maxBodyLen);
      ThenThen(a[..n], q.messages, Parse(q.rest + b, maxBodyLen));
    } else {
      assert p.messages == [] && p.rest == a;
      assert [] + Parse(a + b, maxBodyLen).messages == Parse(a + b, maxBodyLen).messages;
    }
  }

  datatype Sent = Sent(header: Header, payload: seq<Byte>)

  predicate AllSendable(sent: seq<Sent>, maxBodyLen: int) {
    forall i :: 0 <= i < |sent| ==>
      Sendable(sent[i].header, sent[i].payload)
      && !TooLarge(|sent[i].header.name| + |sent[i].payload|, maxBodyLen)
  }

  function Encodings(sent: seq<Sent>, maxBodyLen: int): (r: seq<seq<Byte>>)
    requires AllSendable(sent, maxBodyLen)
    ensures |r| == |sent| && forall i :: 0 <= i < |r| ==> r[i] == Encode(sent[i].header, sent[i].payload)
  {
    seq(|sent|, i requires 0 <= i < |sent| => Encode(sent[i].header, sent[i].payload))
  }

  /** A stream of encoded messages holds exactly those messages. */
  lemma {:induction false} ParseUndoesEncode(sent: seq<Sent>, maxBodyLen: int)
    requires AllSendable(sent, maxBodyLen)
    ensures var e := Encodings(sent, maxBodyLen); Parse(Concat(e), maxBodyLen) == Parsed(e, [], false)
  {
    if sent != [] {
      var front, e := sent[..|sent| - 1], Encodings(sent, maxBodyLen);
      ParseUndoesEncode(front, maxBodyLen);
      assert e[..|e| - 1] == Encodings(front, maxBodyLen);
      ParseOne(sent[|sent| - 1], maxBodyLen);
      ParseOneMore(e[..|e| - 1], e[|e| - 1], maxBodyLen);
      assert e == e[..|e| - 1] + [e[|e| - 1]];
    }
  }

  lemma ParseOneMore(e: seq<seq<Byte>>, last: seq<Byte>, maxBodyLen: int)
    requires Parse(Concat(e), maxBodyLen) == Parsed(e, [], false) && Parse(last, maxBodyLen) == Parsed([last], [], false)
    ensures Concat(e + [last]) == Concat(e) + last
    ensures Parse(Concat(e) + last, maxBodyLen) == Parsed(e + [last], [], false)
  {
    assert (e + [last])[..|e|] == e;
    ParseConcat(Concat(e), last, maxBodyLen);
    assert [] + last == last;
  }

  lemma ParseOne(m: Sent, maxBodyLen: int)
    requires Sendable(m.header, m.payload) && !TooLarge(|m.header.name| + |m.payload|, maxBodyLen)
    ensures var e := Encode(m.header, m.payload); Parse(e, maxBodyLen) == Parsed([e], [], false)
  {
    var e := Encode(m.header, m.payload);
    AccessorsUndoEncode(m.header, m.payload);
    assert e[..|e|] == e && e[|e|..] == [];
    assert Parse([], maxBodyLen) == Parsed([], [], false);
    assert [e] + [] == [e];
  }
}
