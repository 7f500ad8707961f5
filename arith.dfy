/** Integer facts the fixed-point and square-root arithmetic relies on. */
module Arith {
  import opened Rects

  lemma MulLe(x: int, y: int, d: int)
    requires x <= y && d >= 0
    ensures x * d <= y * d
  {
    assert y * d - x * d == (y - x) * d;
  }

  lemma Square(a: nat, b: nat)
    requires a <= b
    ensures a * a <= b * b
  {
    MulLe(a, b, a);
    MulLe(a, b, b);
  }

  lemma SquareLt(a: nat, b: nat)
    requires a * a < b * b
    ensures a < b
  {
    if a >= b {
      Square(b, a);
    }
  }

  function Cubed(l: nat): nat
  {
    l * l * l
  }

  lemma CubeMonotone(a: nat, b: nat)
    requires a <= b
    ensures Cubed(a) <= Cubed(b)
  {
    Square(a, b);
    MulLe(a * a, b * b, a);
    MulLe(a, b, b * b);
  }

  /** Division rounding toward zero never reverses an order. */
  lemma TruncDivMonotone(a: int, b: int, d: int)
    requires d > 0 && a <= b
    ensures TruncDiv(a, d) <= TruncDiv(b, d)
  {
    var qa, qb := TruncDiv(a, d), TruncDiv(b, d);
    if qa > qb {
      assert (qb + 1) * d == qb * d + d;
      MulLe(qb + 1, qa, d);
    }
  }

  lemma TruncDivExact(q: int, d: int)
    requires d > 0
    ensures TruncDiv(q * d, d) == q
  {
    var r := TruncDiv(q * d, d);
    assert (q - r) * d == q * d - r * d;
    ZeroMultiple(q - r, d);
  }

  lemma ZeroMultiple(t: int, d: int)
    requires d > 0 && -d < t * d < d
    ensures t == 0
  {
    if t >= 1 {
      MulLe(1, t, d);
    } else if t <= -1 {
      MulLe(t, -1, d);
    }
  }

  lemma SquareNonNegative(a: int)
    ensures a * a >= 0
  {
    if a < 0 {
      assert a * a == (-a) * (-a);
      MulLe(0, -a, -a);
    } else {
      MulLe(0, a, a);
    }
  }

  lemma SquareFacts(a: int)
    ensures a * a >= 0 && (a != 0 ==> a * a >= 1)
  {
    SquareNonNegative(a);
    if a != 0 {
      SquarePositive(a);
    }
  }

  lemma SquarePositive(a: int)
    requires a != 0
    ensures a * a >= 1
  {
    if a > 0 {
      MulLe(1, a, a);
    } else {
      MulLe(1, -a, -a);
    }
  }

  /** A quotient of something within k multiples of the divisor is within k. */
  lemma TruncDivBound(x: int, d: int, k: int)
    requires d > 0 && k >= 0 && -(k * d) <= x <= k * d
    ensures -k <= TruncDiv(x, d) <= k
  {
    var q := TruncDiv(x, d);
    if x >= 0 {
      if q > k {
        assert (k + 1) * d == k * d + d;
        MulLe(k + 1, q, d);
      }
    } else {
      if q < -k {
        assert (-k - 1) * d == -(k * d) - d;
        MulLe(q, -k - 1, d);
      }
    }
  }

  lemma DoubleSquares(s: int)
    ensures (2 * s) * (2 * s) == 4 * (s * s)
    ensures (2 * s + 1) * (2 * s + 1) == 4 * (s * s) + 4 * s + 1
    ensures (2 * s + 2) * (2 * s + 2) == 4 * ((s + 1) * (s + 1))
  {
  }

  lemma RootStep(n: nat, s: nat)
    requires s * s <= n / 4 < (s + 1) * (s + 1)
    ensures (2 * s) * (2 * s) <= n < (2 * s + 2) * (2 * s + 2)
  {
    DoubleSquares(s);
  }

  /** The integer square root, by halving. */
  function ISqrt(n: nat): (r: nat)
    ensures r * r <= n < (r + 1) * (r + 1)
  {
    if n == 0 then 0
    else
      var s := ISqrt(n / 4);
      RootStep(n, s);
      DoubleSquares(s);
      if 4 * (s * s) + 4 * s + 1 <= n then 2 * s + 1 else 2 * s
  }

  lemma RootOfSquare(k: nat)
    ensures ISqrt(k * k) == k
  {
    RootUnique(k * k, ISqrt(k * k), k);
  }

  lemma RootUnique(n: nat, r: nat, k: nat)
    requires r * r <= n < (r + 1) * (r + 1) && k * k == n
    ensures r == k
  {
    if r < k {
      Square(r + 1, k);
    } else if r > k {
      Square(k + 1, r);
    }
  }

  /** The root of a larger number is at least as large. */
  lemma RootAtLeast(k: nat, n: nat)
    requires k * k <= n
    ensures k <= ISqrt(n)
  {
    RootBound(k, n, ISqrt(n));
  }

  lemma RootBound(k: nat, n: nat, r: nat)
    requires k * k <= n < (r + 1) * (r + 1)
    ensures k <= r
  {
    if k > r {
      Square(r + 1, k);
    }
  }
}
