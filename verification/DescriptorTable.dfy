/** The table from a descriptor to its connection, in pages allocated as descriptors
    reach them, and the tokens that tell a descriptor's owners apart. */
module DescriptorTable {
  import opened Basics

  const PAGE := 4096
  const FIRST_GENERATION := 3
  const LISTENER_KIND := 0
  const WAKE_KIND := 1
  const UDP_KIND := 2

  /** A connection, told apart from any other, and the generation of its token. */
  datatype Conn = Conn(id: nat, gen: nat)

  // ---- Tokens.

  /** A token of 64 bits: a descriptor below, a kind or a generation above. */
  function Token(fd: int, high: nat): nat { fd % TWO_TO_32 + high % TWO_TO_32 * TWO_TO_32 }

  /** newToken, for the `n`-th registration. */
  function NewToken(fd: int, n: nat): nat { Token(fd, FIRST_GENERATION + n) }

  lemma TokenParts(fd: int, high: nat)
    ensures Token(fd, high) % TWO_TO_32 == fd % TWO_TO_32 && Token(fd, high) / TWO_TO_32 == high % TWO_TO_32
  {
  }

  /** The tokens of the first 2^32 - 4 registrations differ from each other and from every listener's, wake-up's and UDP
      socket's, whatever the descriptors. */
  lemma TokensAreDistinct(fd: int, n: nat, other: int, m: nat)
    requires 1 <= n <= TWO_TO_32 - 4
    ensures 1 <= m <= TWO_TO_32 - 4 && m != n ==> NewToken(fd, n) != NewToken(other, m)
    ensures forall kind :: LISTENER_KIND <= kind <= UDP_KIND ==> NewToken(fd, n) != Token(other, kind)
  {
    TokenParts(fd, FIRST_GENERATION + n);
    TokenParts(other, FIRST_GENERATION + m);
    forall kind | LISTENER_KIND <= kind <= UDP_KIND
      ensures NewToken(fd, n) != Token(other, kind)
    {
      TokenParts(other, kind);
    }
  }

  // ---- The table.

  lemma SlotOf(fd: nat, page: nat, k: nat)
    requires k < PAGE
    ensures page * PAGE + k == fd <==> page == fd / PAGE && k == fd % PAGE
  {
  }

  class Table {
    var pages: seq<array?<Option<Conn>>>
    ghost var owners: map<nat, Conn>

    ghost function Repr(): set<object>
      reads this
    {
      set p | 0 <= p < |pages| && pages[p] != null :: pages[p]
    }

    /** The table holds exactly the owners. */
    ghost predicate Valid()
      reads this, Repr()
    {
      && (forall p :: 0 <= p < |pages| && pages[p] != null ==> pages[p].Length == PAGE)
      && (forall p, q :: 0 <= p < q < |pages| && pages[p] != null ==> pages[p] != pages[q])
      && (forall p, k :: 0 <= p < |pages| && pages[p] != null && 0 <= k < PAGE ==> pages[p][k] == Owner(p * PAGE + k))
      && (forall fd :: fd in owners ==> fd / PAGE < |pages| && pages[fd / PAGE] != null)
    }

    ghost function Owner(fd: nat): Option<Conn>
      reads this`owners
    {
      if fd in owners then Some(owners[fd]) else None
    }

    constructor ()
      ensures Valid() && owners == map[] && Repr() == {}
    {
      pages, owners := [], map[];
    }

    method ConnectionAt(fd: int) returns (c: Option<Conn>)
      requires Valid()
      ensures c == if fd >= 0 then Owner(fd) else None
    {
      if fd < 0 || fd / PAGE >= |pages| {
        return None;
      }
      var entries := pages[fd / PAGE];
      if entries == null {
        return None;
      }
      assert fd == fd / PAGE * PAGE + fd % PAGE;
      return entries[fd % PAGE];
    }

    /** A token resolves to the connection that holds its descriptor under exactly that token, or to nothing. */
    method ConnectionFor(token: nat) returns (c: Option<Conn>)
      requires Valid() && token < TWO_TO_32 * TWO_TO_32
      requires forall fd :: fd in owners ==> fd < TWO_TO_32 && owners[fd].gen < TWO_TO_32
      ensures c.Some? <==> exists fd :: fd in owners && Token(fd, owners[fd].gen) == token
      ensures c.Some? ==>
                var fd := token % TWO_TO_32;
                fd in owners && c.value == owners[fd] && Token(fd, c.value.gen) == token
    {
      c := ConnectionAt(token % TWO_TO_32);
      if c.Some? && c.value.gen != token / TWO_TO_32 {
        c := None;
      }
      forall fd | fd in owners
        ensures Token(fd, owners[fd].gen) == token <==> c.Some? && fd == token % TWO_TO_32
      {
        TokenParts(fd, owners[fd].gen);
      }
    }

    /** The directory grown to cover a page. */
    method Widen(page: nat)
      requires Valid()
      modifies `pages
      ensures Valid() && owners == old(owners) && page < |pages| && Repr() == old(Repr())
    {
      if page < |pages| {
        return;
      }
      var size := if page + 1 < 2 * |pages| then 2 * |pages| else page + 1;
      pages := pages + seq(size - |pages|, _ => null);
      assert forall p :: old(|pages|) <= p < |pages| ==> pages[p] == null;
      assert forall p :: 0 <= p < old(|pages|) ==> pages[p] == old(pages)[p];
    }

    /** A page made. */
    method MakePage(page: nat)
      requires Valid() && page < |pages|
      modifies `pages
      ensures Valid() && owners == old(owners) && |pages| == old(|pages|) && pages[page] != null
      ensures fresh(Repr() - old(Repr()))
    {
      if pages[page] != null {
        return;
      }
      assert forall fd :: fd in owners ==> fd / PAGE != page;
      var entries := new Option<Conn>[PAGE](_ => None);
      pages := pages[page := entries];
    }

    /** trackConnection. */
    method Track(fd: nat, c: Conn)
      requires Valid()
      modifies this, Repr()
      ensures Valid() && owners == old(owners)[fd := c] && fresh(Repr() - old(Repr()))
    {
      var page := fd / PAGE;
      Widen(page);
      MakePage(page);
      Put(fd, c);
    }

    method Put(fd: nat, c: Conn)
      requires Valid() && fd / PAGE < |pages| && pages[fd / PAGE] != null
      modifies `owners, Repr()
      ensures Valid() && owners == old(owners)[fd := c]
    {
      var page, k := fd / PAGE, fd % PAGE;
      pages[page][k] := Some(c);
      owners := owners[fd := c];
      forall p, j | 0 <= p < |pages| && pages[p] != null && 0 <= j < PAGE
        ensures pages[p][j] == Owner(p * PAGE + j)
      {
        assert old(pages[p][j]) == old(Owner(p * PAGE + j));
        SlotOf(fd, p, j);
      }
    }

    method Clear(fd: nat)
      requires Valid() && fd in owners
      modifies `owners, Repr()
      ensures Valid() && owners == old(owners) - {fd}
    {
      var page, k := fd / PAGE, fd % PAGE;
      pages[page][k] := None;
      owners := owners - {fd};
      forall p, j | 0 <= p < |pages| && pages[p] != null && 0 <= j < PAGE
        ensures pages[p][j] == Owner(p * PAGE + j)
      {
        assert old(pages[p][j]) == old(Owner(p * PAGE + j));
        SlotOf(fd, p, j);
      }
    }

    /** detach's part in it: the slot is given up, unless another connection has it by now. */
    method Detach(fd: nat, c: Conn)
      requires Valid()
      modifies `owners, Repr()
      ensures Valid() && owners == if old(fd in owners && owners[fd] == c) then old(owners) - {fd} else old(owners)
    {
      var at := ConnectionAt(fd);
      if at != Some(c) {
        return;
      }
      Clear(fd);
    }
  }
}
