/** Powers of two and logarithms, by the draw builders' two loops. */
module Powers {

  function Pow2(k: nat): (p: nat)
    ensures p >= 1
  {
    if k == 0 then 1 else 2 * Pow2(k - 1)
  }

  /** Floor of the binary logarithm, 0 below 2. */
  function Lg(n: int): nat {
    if n < 2 then 0 else 1 + Lg(n / 2)
  }

  predicate IsPow2(n: int) {
    n == Pow2(Lg(n))
  }

  /** The least power of two that is at least n. */
  function PowerAtLeast(n: int): (p: nat)
    ensures p >= 1
    ensures p >= n
    ensures p > 1 ==> p < 2 * n
    ensures IsPow2(p)
  {
    if n <= 1 then 1 else 2 * PowerAtLeast((n + 1) / 2)
  }

  /** Lg is constant between consecutive powers of two. */
  lemma {:induction false} LgBetween(h: nat, u: int)
    requires Pow2(h) <= u < 2 * Pow2(h)
    ensures Lg(u) == h
  {
    if h > 0 {
      LgBetween(h - 1, u / 2);
    }
  }

  lemma {:induction false} LgBounds(u: int)
    requires u >= 1
    ensures Pow2(Lg(u)) <= u < 2 * Pow2(Lg(u))
  {
    if u >= 2 {
      LgBounds(u / 2);
    }
  }

  lemma {:induction false} Pow2Grows(j: nat, k: nat)
    requires j <= k
    ensures Pow2(j) <= Pow2(k)
  {
    if j < k {
      Pow2Grows(j, k - 1);
    }
  }

  lemma Pow2IsPow2(k: nat)
    ensures Lg(Pow2(k)) == k && IsPow2(Pow2(k))
  {
    LgBetween(k, Pow2(k));
  }

  /** There is only one power of two in [n, 2n). */
  lemma {:induction false} PowerAtLeastUnique(n: int, p: nat)
    requires IsPow2(p) && n <= p && (p > 1 ==> p < 2 * n)
    ensures p == PowerAtLeast(n)
  {
    if n > 1 {
      var k := Lg(p);
      assert k > 0;
      assert p == 2 * Pow2(k - 1);
      Pow2IsPow2(k - 1);
      PowerAtLeastUnique((n + 1) / 2, Pow2(k - 1));
    }
  }

  method NextPowerOfTwo(n: int) returns (p: nat)
    ensures p == PowerAtLeast(n)
  {
    p := 1;
    ghost var k := 0;
    while p < n
      invariant p == Pow2(k)
      invariant p > 1 ==> p < 2 * n
    {
      p := p * 2;
      k := k + 1;
    }
    Pow2IsPow2(k);
    PowerAtLeastUnique(n, p);
  }

  method Log2(n: int) returns (r: nat)
    ensures r == Lg(n)
  {
    r := 0;
    var m := n;
    while m > 1
      invariant r + Lg(m) == Lg(n)
    {
      m := m / 2;
      r := r + 1;
    }
  }
}
