// Integer powers of two and the rounded-up base-2 logarithm.
//
// The C++ passes size their buffers and dispatches with
// `1 << (uint)ceil(log2((double)x))`.  For every 32-bit `x >= 1` the double
// logarithm of a power of two is exact and `ceil` of any other value lands on
// the next integer, so the expression is the integer `CeilLog2` below.

module PowerOfTwo {

  /** 2^e, the value of `1 << e` while it fits its integer type. */
  function Pow2(e: nat): (r: nat)
    ensures r >= 1
  {
    if e == 0 then 1 else 2 * Pow2(e - 1)
  }

  /** `ceil(log2(x))`: the least exponent whose power of two reaches `x`. */
  function CeilLog2(x: nat): (r: nat)
    requires x >= 1
    ensures Pow2(r) >= x
    ensures r == 0 || Pow2(r - 1) < x
    decreases x
  {
    if x == 1 then 0 else 1 + CeilLog2((x + 1) / 2)
  }

  /** `1 << ceil(log2(x))`: the least power of two that is not below `x`. */
  function NextPow2(x: nat): (r: nat)
    requires x >= 1
    ensures x <= r < 2 * x
  {
    Pow2(CeilLog2(x))
  }

  lemma {:induction false} Pow2Add(a: nat, b: nat)
    ensures Pow2(a + b) == Pow2(a) * Pow2(b)
    decreases a
  {
    if a > 0 {
      Pow2Add(a - 1, b);
    }
  }

  lemma {:induction false} Pow2StrictlyIncreasing(a: nat, b: nat)
    requires a < b
    ensures Pow2(a) < Pow2(b)
    decreases b
  {
    if a < b - 1 {
      Pow2StrictlyIncreasing(a, b - 1);
    }
  }

  lemma Pow2Monotone(a: nat, b: nat)
    requires a <= b
    ensures Pow2(a) <= Pow2(b)
  {
    if a < b {
      Pow2StrictlyIncreasing(a, b);
    }
  }

  /** Comparing powers of two is comparing their exponents. */
  lemma Pow2Order(a: nat, b: nat)
    ensures Pow2(a) <= Pow2(b) <==> a <= b
  {
    if a <= b {
      Pow2Monotone(a, b);
    } else {
      Pow2StrictlyIncreasing(b, a);
    }
  }

  /** The powers of two the passes use as thresholds. */
  lemma Pow2Thresholds()
    ensures Pow2(10) == 1024 && Pow2(11) == 2048 && Pow2(12) == 4096
  {
    assert Pow2(1) == 2;
    assert Pow2(2) == 4;
    assert Pow2(3) == 8;
    assert Pow2(4) == 16;
    assert Pow2(5) == 32;
    assert Pow2(6) == 64;
    assert Pow2(7) == 128;
    assert Pow2(8) == 256;
    assert Pow2(9) == 512;
    assert Pow2(10) == 1024;
    assert Pow2(11) == 2048;
    assert Pow2(12) == 4096;
  }

  /** The powers of two that bound 32-bit counts. */
  lemma Pow2Limits()
    ensures Pow2(30) == 0x4000_0000 && Pow2(32) == 0x1_0000_0000
  {
    Pow2Thresholds();
    Pow2Add(10, 10);
    Pow2Add(20, 10);
    Pow2Add(30, 2);
  }

  /** Any exponent whose power reaches `x` is at least `CeilLog2(x)`. */
  lemma {:induction false} CeilLog2Least(x: nat, e: nat)
    requires x >= 1 && Pow2(e) >= x
    ensures CeilLog2(x) <= e
    decreases x
  {
    if x > 1 {
      assert e >= 1;
      CeilLog2Least((x + 1) / 2, e - 1);
    }
  }

  lemma CeilLog2OfPow2(e: nat)
    ensures CeilLog2(Pow2(e)) == e
  {
    var r := CeilLog2(Pow2(e));
    CeilLog2Least(Pow2(e), e);
    if r < e {
      Pow2StrictlyIncreasing(r, e);
    }
  }

  lemma CeilLog2Monotone(x: nat, y: nat)
    requires 1 <= x <= y
    ensures CeilLog2(x) <= CeilLog2(y)
  {
    CeilLog2Least(x, CeilLog2(y));
  }

  /** `1 << ceil(log2(x))` never shrinks when `x` grows. */
  lemma NextPow2Monotone(x: nat, y: nat)
    requires 1 <= x <= y
    ensures NextPow2(x) <= NextPow2(y)
  {
    CeilLog2Monotone(x, y);
    Pow2Monotone(CeilLog2(x), CeilLog2(y));
  }

  /** A bound on `x` by a power of two bounds its logarithm. */
  lemma CeilLog2Bounded(x: nat, k: nat)
    requires 1 <= x <= Pow2(k)
    ensures CeilLog2(x) <= k
  {
    CeilLog2Least(x, k);
  }

  /** Scaling both sides of `a <= b` by the same natural number. */
  lemma MulMonotone(a: nat, b: nat, w: nat)
    requires a <= b
    ensures a * w <= b * w
  {
    assert b * w == a * w + (b - a) * w;
  }

  /** Euclidean division brackets `n` between consecutive multiples of `w`. */
  lemma DivBounds(n: nat, w: nat)
    requires w >= 1
    ensures (n / w) * w <= n < (n / w + 1) * w
  {
    assert n == (n / w) * w + n % w;
  }
}
