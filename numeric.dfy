/** Python's numeric primitives as the script uses them, on exact reals. */
module Numeric {

  /** Python's `int(x)` on a float: truncation toward zero. */
  function Trunc(x: real): (r: int)
    ensures x >= 0.0 ==> r >= 0 && r as real <= x < r as real + 1.0
    ensures x < 0.0 ==> r <= 0 && r as real - 1.0 < x <= r as real
  {
    if x >= 0.0 then x.Floor else -((-x).Floor)
  }

  /** On non-negative values truncation is the floor. */
  lemma TruncIsFloor(x: real)
    requires x >= 0.0
    ensures Trunc(x) == x.Floor
  {
  }

  /** Truncation gives back an integer unchanged. */
  lemma TruncOfInt(n: int)
    ensures Trunc(n as real) == n
  {
  }

  /** Truncation is monotone on non-negative values. */
  lemma TruncMonotone(x: real, y: real)
    requires 0.0 <= x <= y
    ensures Trunc(x) <= Trunc(y)
  {
    assert Trunc(x) as real <= x <= y < Trunc(y) as real + 1.0;
  }

  /** Python's `x ** n` for a natural exponent. */
  function Pow(x: real, n: nat): (r: real)
    ensures n == 0 ==> r == 1.0
    ensures x >= 0.0 ==> r >= 0.0
    ensures x >= 1.0 ==> r >= 1.0
  {
    if n == 0 then 1.0 else x * Pow(x, n - 1)
  }

  /** One more factor of a base of at least one does not decrease the power. */
  lemma PowStep(x: real, n: nat)
    requires x >= 1.0
    ensures Pow(x, n) <= Pow(x, n + 1)
  {
    var p, q := Pow(x, n), Pow(x, n + 1);
    NonNegProduct(x - 1.0, p);
    assert q - p == (x - 1.0) * p;
  }

  /** A base of at least one makes the power non-decreasing in the exponent. */
  lemma {:induction false} PowMonotone(x: real, m: nat, n: nat)
    requires x >= 1.0
    requires m <= n
    ensures Pow(x, m) <= Pow(x, n)
    decreases n
  {
    if m < n {
      PowMonotone(x, m, n - 1);
      PowStep(x, n - 1);
    }
  }

  /** The product of two non-negative values is non-negative. */
  lemma NonNegProduct(a: real, b: real)
    requires a >= 0.0 && b >= 0.0
    ensures a * b >= 0.0
  {
  }

  /** Products of non-negative values are monotone in both factors. */
  lemma MulMonotone(a: real, b: real, c: real, d: real)
    requires 0.0 <= a <= b
    requires 0.0 <= c <= d
    ensures a * c <= b * d
  {
    NonNegProduct(b - a, c);
    NonNegProduct(b, d - c);
    assert b * d - a * c == (b - a) * c + b * (d - c);
  }

  /** The product of three factors, kept as one term so that proofs about it stay linear. */
  function Product3(a: real, b: real, c: real): real
  {
    a * b * c
  }

  /** A product of three non-negative factors is monotone in each factor. */
  lemma ProductMonotone(b: real, d1: real, d2: real, f1: real, f2: real)
    requires b >= 0.0
    requires 0.0 <= d1 <= d2
    requires 0.0 <= f1 <= f2
    ensures 0.0 <= Product3(b, d1, f1) <= Product3(b, d2, f2)
  {
    MulMonotone(b, b, d1, d2);
    NonNegProduct(b, d1);
    MulMonotone(b * d1, b * d2, f1, f2);
    NonNegProduct(b * d1, f1);
  }

  /** A product of three non-negative factors is non-negative. */
  lemma Product3NonNeg(a: real, b: real, c: real)
    ensures a >= 0.0 && b >= 0.0 && c >= 0.0 ==> Product3(a, b, c) >= 0.0
  {
    if a >= 0.0 && b >= 0.0 && c >= 0.0 {
      NonNegProduct(a, b);
      NonNegProduct(a * b, c);
    }
  }

  /** Scaling a non-negative integer by a factor between lo and hi stays between the scaled bounds. */
  lemma ScaleBounds(a: int, n: int, lo: int, hi: int)
    ensures a >= 0 && lo <= n <= hi ==> a * lo <= a * n <= a * hi
  {
    if a >= 0 && lo <= n <= hi {
      assert a * n - a * lo == a * (n - lo);
      assert a * hi - a * n == a * (hi - n);
    }
  }
}
