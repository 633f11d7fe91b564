/**
  Facts about real numbers shared by the vector and quaternion modules, and the
  abstraction of `sqrt` used wherever the source takes a square root.
 */
module Reals {

  /**
    `sqrt` is a parameter of the operations that take square roots: any function that
    is non-negative and squares back to its non-negative argument qualifies.
   */
  ghost predicate IsSqrt(sqrt: real -> real) {
    forall t: real {:trigger sqrt(t)} :: 0.0 <= t ==> 0.0 <= sqrt(t) && sqrt(t) * sqrt(t) == t
  }

  lemma Square(t: real)
    ensures 0.0 <= t * t
  {
    if t < 0.0 {
      assert t * t == (-t) * (-t);
    }
  }

  lemma SquarePositive(t: real)
    requires t != 0.0
    ensures 0.0 < t * t
  {
    if t < 0.0 {
      assert t * t == (-t) * (-t);
    }
  }

  /** A sum of three squares is non-negative, and positive unless all three terms are zero. */
  lemma SumOfSquares(x: real, y: real, z: real)
    ensures 0.0 <= x * x + y * y + z * z
    ensures x != 0.0 || y != 0.0 || z != 0.0 ==> 0.0 < x * x + y * y + z * z
  {
    Square(x);
    Square(y);
    Square(z);
    if x != 0.0 {
      SquarePositive(x);
    } else if y != 0.0 {
      SquarePositive(y);
    } else if z != 0.0 {
      SquarePositive(z);
    }
  }

  lemma TimesMinusOne(a: real)
    ensures a * -1.0 == -a
  {
  }

  /** A product is zero only when one of its factors is. */
  lemma ZeroProduct(x: real, y: real)
    requires x * y == 0.0
    ensures x == 0.0 || y == 0.0
  {
  }

  lemma SquareZero(t: real)
    requires t * t == 0.0
    ensures t == 0.0
  {
    ZeroProduct(t, t);
  }

  /** A sum of three squares is zero only when every term is. */
  lemma SumOfSquaresZero(x: real, y: real, z: real)
    requires x * x + y * y + z * z == 0.0
    ensures x == 0.0 && y == 0.0 && z == 0.0
  {
    Square(x);
    Square(y);
    Square(z);
    SquareZero(x);
    SquareZero(y);
    SquareZero(z);
  }

  /** The non-negative square root of one is one. */
  lemma RootOfOne(s: real)
    requires 0.0 <= s && s * s == 1.0
    ensures s == 1.0
  {
    assert (s - 1.0) * (s + 1.0) == 0.0;
    ZeroProduct(s - 1.0, s + 1.0);
  }

  /** Cancelling a non-zero factor. */
  lemma Cancel(a: real, b: real, c: real)
    requires c != 0.0
    requires a * c == b * c
    ensures a == b
  {
  }

  lemma SquareOfProduct(x: real, n: real, m: real)
    requires x == n * m
    ensures x * x == (n * n) * (m * m)
  {
  }

  /** Three multiples of q add up to a multiple of q. */
  lemma Collect(a: real, b: real, c: real, sa: real, sb: real, sc: real, s: real, q: real)
    requires sa == a * q && sb == b * q && sc == c * q
    requires s == sa + sb + sc
    ensures s == (a + b + c) * q
  {
  }

  lemma TwiceProduct(a: real, b: real)
    ensures 2.0 * a * b <= a * a + b * b
  {
    Square(a - b);
    assert (a - b) * (a - b) == a * a - 2.0 * a * b + b * b;
  }
}
