/**
  Gravity and acceleration vectors (Headitude/Utilities/AccelerationExtension.swift):
  cross and dot products, magnitude, normalisation, scaling and copying of a
  `CMAcceleration`. Components are exact reals; `sqrt` is a parameter (see Reals.IsSqrt).
 */
module Accelerations {
  import opened Reals

  /** A CoreMotion acceleration or gravity vector, in units of g. */
  datatype Acceleration = Acceleration(x: real, y: real, z: real)

  /** The value of `CMAcceleration()`, whose components are all zero. */
  const Origin := Acceleration(0.0, 0.0, 0.0)

  /** The 2x2 determinant p*q - r*t, one component of the cross product. */
  function Det2(p: real, q: real, r: real, t: real): real {
    p * q - r * t
  }

  function Cross(a: Acceleration, b: Acceleration): Acceleration {
    Acceleration(Det2(a.y, b.z, a.z, b.y), Det2(a.z, b.x, a.x, b.z), Det2(a.x, b.y, a.y, b.x))
  }

  function Dot(a: Acceleration, b: Acceleration): real {
    a.x * b.x + a.y * b.y + a.z * b.z
  }

  /** `sqrt(x*x + y*y + z*z)`: with a square root, a non-negative number whose square is v·v. */
  function Magnitude(v: Acceleration, sqrt: real -> real): (r: real)
    ensures IsSqrt(sqrt) ==> 0.0 <= r && r * r == Dot(v, v)
  {
    SumOfSquares(v.x, v.y, v.z);
    sqrt(v.x * v.x + v.y * v.y + v.z * v.z)
  }

  /** Each component divided by the magnitude; the source divides unguarded. */
  function Normalized(v: Acceleration, sqrt: real -> real): Acceleration
    requires Magnitude(v, sqrt) != 0.0
  {
    var mag := Magnitude(v, sqrt);
    Acceleration(v.x / mag, v.y / mag, v.z / mag)
  }

  function Scaled(v: Acceleration, factor: real): Acceleration {
    Acceleration(v.x * factor, v.y * factor, v.z * factor)
  }

  /** A fresh vector with the same components. */
  function Copy(v: Acceleration): (r: Acceleration)
    ensures r == v && r.x == v.x && r.y == v.y && r.z == v.z
  {
    Acceleration(v.x, v.y, v.z)
  }

  // ---------------------------------------------------------------- products

  lemma CrossAntiCommutative(a: Acceleration, b: Acceleration)
    ensures Cross(a, b) == Scaled(Cross(b, a), -1.0)
  {
  }

  lemma CrossSelf(a: Acceleration)
    ensures Cross(a, a) == Origin
  {
  }

  /** The cross product is orthogonal to both of its inputs. */
  lemma CrossOrthogonal(a: Acceleration, b: Acceleration)
    ensures Dot(a, Cross(a, b)) == 0.0
    ensures Dot(b, Cross(a, b)) == 0.0
  {
  }

  lemma DotSymmetric(a: Acceleration, b: Acceleration)
    ensures Dot(a, b) == Dot(b, a)
  {
  }

  /** Lagrange's identity: |a × b|² = |a|²|b|² - (a·b)². */
  lemma Lagrange(a: Acceleration, b: Acceleration)
    ensures Dot(Cross(a, b), Cross(a, b)) == Dot(a, a) * Dot(b, b) - Dot(a, b) * Dot(a, b)
  {
  }

  // ---------------------------------------------------------------- scaling

  lemma ScaledOne(v: Acceleration)
    ensures Scaled(v, 1.0) == v
  {
  }

  lemma ScaledCompose(v: Acceleration, f: real, g: real)
    ensures Scaled(Scaled(v, f), g) == Scaled(v, f * g)
  {
  }

  /** `scaled(-1)` is an involution. */
  lemma ScaledNegateTwice(v: Acceleration)
    ensures Scaled(Scaled(v, -1.0), -1.0) == v
  {
    ScaledCompose(v, -1.0, -1.0);
    ScaledOne(v);
  }

  /** `scaled(-1)` gives the zero vector exactly from the zero vector. */
  lemma NegatedZero(v: Acceleration)
    ensures Scaled(v, -1.0) == Origin <==> v == Origin
  {
    if Scaled(v, -1.0) == Origin {
      TimesMinusOne(v.x);
      TimesMinusOne(v.y);
      TimesMinusOne(v.z);
    }
  }

  /** A factor common to one column of a 2x2 determinant moves out of it. */
  lemma Det2Scaled(p: real, q: real, r: real, t: real, s: real)
    ensures Det2(p, q * s, r, t * s) == Det2(p, q, r, t) * s
    ensures Det2(p * s, q, r * s, t) == Det2(p, q, r, t) * s
  {
  }

  /** Scaling the second input scales the cross product. */
  lemma CrossScaledRight(a: Acceleration, b: Acceleration, s: real)
    ensures Cross(a, Scaled(b, s)) == Scaled(Cross(a, b), s)
  {
    Det2Scaled(a.y, b.z, a.z, b.y, s);
    Det2Scaled(a.z, b.x, a.x, b.z, s);
    Det2Scaled(a.x, b.y, a.y, b.x, s);
  }

  /** Scaling the first input scales the cross product. */
  lemma CrossScaledLeft(a: Acceleration, b: Acceleration, s: real)
    ensures Cross(Scaled(a, s), b) == Scaled(Cross(a, b), s)
  {
    Det2Scaled(a.y, b.z, a.z, b.y, s);
    Det2Scaled(a.z, b.x, a.x, b.z, s);
    Det2Scaled(a.x, b.y, a.y, b.x, s);
  }

  // ---------------------------------------------------------------- magnitude

  /** Only the zero vector has magnitude zero, so `normalized()` divides by zero exactly there. */
  lemma MagnitudeZero(v: Acceleration, sqrt: real -> real)
    requires IsSqrt(sqrt)
    ensures Magnitude(v, sqrt) == 0.0 <==> v == Origin
  {
    var m := Magnitude(v, sqrt);
    if v == Origin {
      SquareZero(m);
    } else if m == 0.0 {
      assert m * m == 0.0;
      SumOfSquaresZero(v.x, v.y, v.z);
    }
  }

  /** The normalised components squared, over plain reals: (x, y, z) is (nx, ny, nz) * m. */
  lemma UnitQuotient(nx: real, ny: real, nz: real, x: real, y: real, z: real, m: real)
    requires m != 0.0
    requires m * m == x * x + y * y + z * z
    requires x == nx * m && y == ny * m && z == nz * m
    ensures nx * nx + ny * ny + nz * nz == 1.0
  {
    SquareOfProduct(x, nx, m);
    SquareOfProduct(y, ny, m);
    SquareOfProduct(z, nz, m);
    Collect(nx * nx, ny * ny, nz * nz, x * x, y * y, z * z, m * m, m * m);
    Cancel((nx * nx + ny * ny + nz * nz) * m, m, m);
    Cancel(nx * nx + ny * ny + nz * nz, 1.0, m);
  }

  /** A normalised vector has unit length. */
  lemma NormalizedUnit(v: Acceleration, sqrt: real -> real)
    requires IsSqrt(sqrt)
    requires Magnitude(v, sqrt) != 0.0
    ensures Dot(Normalized(v, sqrt), Normalized(v, sqrt)) == 1.0
  {
    var n := Normalized(v, sqrt);
    NormalizedParallel(v, sqrt);
    UnitQuotient(n.x, n.y, n.z, v.x, v.y, v.z, Magnitude(v, sqrt));
  }

  /** A normalised vector points the same way as the original. */
  lemma NormalizedParallel(v: Acceleration, sqrt: real -> real)
    requires IsSqrt(sqrt)
    requires Magnitude(v, sqrt) != 0.0
    ensures Cross(v, Normalized(v, sqrt)) == Origin
    ensures Dot(v, Normalized(v, sqrt)) == Magnitude(v, sqrt)
    ensures Scaled(Normalized(v, sqrt), Magnitude(v, sqrt)) == v
  {
  }

  lemma DotScaledRight(p: Acceleration, q: Acceleration, t: real)
    ensures Dot(p, Scaled(q, t)) == Dot(p, q) * t
  {
  }

  /** Normalising a vector keeps it orthogonal to whatever it was orthogonal to. */
  lemma NormalizedOrthogonal(a: Acceleration, b: Acceleration, sqrt: real -> real)
    requires IsSqrt(sqrt)
    requires Magnitude(b, sqrt) != 0.0
    requires Dot(a, b) == 0.0
    ensures Dot(a, Normalized(b, sqrt)) == 0.0
  {
    var n := Normalized(b, sqrt);
    NormalizedParallel(b, sqrt);
    DotScaledRight(a, n, Magnitude(b, sqrt));
    ZeroProduct(Dot(a, n), Magnitude(b, sqrt));
  }
}
