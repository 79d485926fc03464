/** Powers of two. */
module Powers {
  function Pow2(k: nat): (r: nat)
    ensures r > 0
  {
    if k == 0 then 1 else 2 * Pow2(k - 1)
  }

  /** Twice the product is the product with the next power. */
  lemma TwiceProduct(m: nat, k: nat)
    requires k > 0
    ensures m * Pow2(k) == 2 * (m * Pow2(k - 1))
  {
    var p := Pow2(k - 1);
    calc {
      m * Pow2(k);
      m * (2 * p);
      2 * (m * p);
    }
  }

  lemma MulGrows(x: int, w: nat)
    ensures (x >= 1 ==> x * w >= w) && (x <= -1 ==> x * w <= 0 - w)
  {
  }

  predicate PowerOfTwo(n: nat) { n == 1 || (n > 1 && n % 2 == 0 && PowerOfTwo(n / 2)) }

  /** The position of the highest bit. */
  function Log2(n: nat): nat
    requires n > 0
  {
    if n == 1 then 0 else 1 + Log2(n / 2)
  }

  lemma {:induction false} LogBounds(n: nat)
    requires n > 0
    ensures Pow2(Log2(n)) <= n < Pow2(Log2(n) + 1)
  {
    if n > 1 {
      LogBounds(n / 2);
    }
  }

  lemma {:induction false} PowerIsPow2(n: nat)
    requires n > 0 && PowerOfTwo(n)
    ensures n == Pow2(Log2(n))
  {
    if n > 1 {
      PowerIsPow2(n / 2);
    }
  }

  lemma {:induction false} Pow2IsPower(k: nat)
    ensures PowerOfTwo(Pow2(k)) && Log2(Pow2(k)) == k
  {
    if k > 0 {
      Pow2IsPower(k - 1);
      var n := Pow2(k);
      assert n > 1 && n % 2 == 0 && n / 2 == Pow2(k - 1);
      assert PowerOfTwo(n / 2) && Log2(n) == 1 + Log2(n / 2);
    }
  }

  lemma {:induction false} Pow2Adds(j: nat, k: nat)
    ensures Pow2(j + k) == Pow2(j) * Pow2(k)
  {
    if j > 0 {
      Pow2Adds(j - 1, k);
    }
  }

  lemma {:induction false} LogGrows(a: nat, b: nat)
    requires 0 < a <= b
    ensures Log2(a) <= Log2(b)
  {
    if a > 1 {
      LogGrows(a / 2, b / 2);
    }
  }

  /** Of two powers of two, the larger is a multiple of the smaller. */
  lemma PowersDivide(a: nat, b: nat)
    requires a > 0 && b > 0 && PowerOfTwo(a) && PowerOfTwo(b) && a <= b
    ensures Log2(a) <= Log2(b) && b == Pow2(Log2(b) - Log2(a)) * a
  {
    PowerIsPow2(a);
    PowerIsPow2(b);
    LogGrows(a, b);
    Pow2Adds(Log2(b) - Log2(a), Log2(a));
  }

  lemma {:induction false} Pow2Grows(j: nat, k: nat)
    requires j <= k
    ensures Pow2(j) <= Pow2(k)
  {
    if j < k {
      Pow2Grows(j, k - 1);
    }
  }

  lemma Halves(k: nat)
    requires Pow2(k) > 1
    ensures k > 0 && Pow2(k) == 2 * Pow2(k - 1) && Pow2(k) / 2 == Pow2(k - 1)
  {
  }

  /** The exponent of the least power of two that is at least `n`. */
  function CeilLog(n: nat): (k: nat)
    ensures n <= Pow2(k)
  {
    if n <= 1 then 0 else 1 + CeilLog((n + 1) / 2)
  }

  lemma {:induction false} CeilLogIsLeast(n: nat, k: nat)
    requires n <= Pow2(k)
    ensures CeilLog(n) <= k
  {
    if n > 1 {
      CeilLogIsLeast((n + 1) / 2, k - 1);
    }
  }

  lemma {:induction false} CeilLogIsTight(n: nat)
    requires CeilLog(n) > 0
    ensures Pow2(CeilLog(n) - 1) < n
  {
    if CeilLog(n) > 1 {
      CeilLogIsTight((n + 1) / 2);
    }
  }

  /** A power of two that is at least `n`, and no more than any other such, is that one. */
  lemma LeastIsCeilLog(n: nat, k: nat)
    requires n <= Pow2(k) && Pow2(k) <= Pow2(CeilLog(n))
    ensures k == CeilLog(n)
  {
    CeilLogIsLeast(n, k);
    if CeilLog(n) < k {
      Pow2Grows(CeilLog(n) + 1, k);
    }
  }

  lemma Quotient(x: nat, q: nat, w: nat, r: nat)
    requires x == q * w + r && r < w
    ensures x / w == q
  {
    var d := x / w - q;
    assert x == x / w * w + x % w;
    assert d * w == r - x % w by {
      assert d * w == x / w * w - q * w;
    }
    MulGrows(d, w);
  }
}
