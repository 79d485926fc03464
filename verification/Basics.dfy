/** What several of the models share. */
module Basics {
  datatype Option<+T> = None | Some(value: T)

  newtype Byte = x: int | 0 <= x < 256

  const TWO_TO_32 := 0x1_0000_0000

  function Min(a: int, b: int): int { if a < b then a else b }

  function Max(a: int, b: int): int { if a < b then b else a }

  function One(b: bool): nat { if b then 1 else 0 }

  /** The parts, one after another. */
  function Concat(parts: seq<seq<Byte>>): seq<Byte> {
    if parts == [] then [] else Concat(parts[..|parts| - 1]) + parts[|parts| - 1]
  }

  // ---- Joining sequences, whose equality the solver is slow to see where it is not alone.

  lemma Regroup(a: seq<Byte>, b: seq<Byte>, c: seq<Byte>)
    ensures a + (b + c) == a + b + c
  {
  }

  lemma JoinNone(a: seq<Byte>, b: seq<Byte>)
    ensures b == [] ==> a + b == a && b + a == a
  {
  }

  lemma Rejoin(before: seq<Byte>, data: seq<Byte>, n: nat)
    requires n <= |data|
    ensures before + data[..n] + data[n..] == before + data
    ensures n == 0 ==> before + data[n..] == before + data && before + data[..n] == before
  {
    assert data[..n] + data[n..] == data;
  }

  lemma ConcatMore(parts: seq<seq<Byte>>, more: seq<Byte>)
    ensures Concat(parts + [more]) == Concat(parts) + more
  {
    assert (parts + [more])[..|parts|] == parts;
  }
}
