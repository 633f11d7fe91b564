/**
  The quaternion algebra of the head tracker (Headitude/QuaternionExtension.swift):
  component equality, the Hamilton product, the conjugate (called `inverse` in the
  source), the fixed remap to the Ambisonic axis convention, the clamp inside the
  Tait-Bryan pitch, and the rotation of a 3-vector by a quaternion.

  Components are exact reals: IEEE rounding is not modelled.
 */
module Quaternions {
  import opened Reals

  /** A CoreMotion quaternion (x, y, z) + w. */
  datatype Quaternion = Quaternion(x: real, y: real, z: real, w: real)

  /** A SceneKit 3-vector. */
  datatype Vector3 = Vector3(x: real, y: real, z: real)

  /** The identity rotation (0, 0, 0, 1). */
  const Identity := Quaternion(0.0, 0.0, 0.0, 1.0)

  /** The value of `CMQuaternion()`, whose components are all zero. */
  const Zero := Quaternion(0.0, 0.0, 0.0, 0.0)

  /** A quaternion with only a real part. */
  function Scalar(s: real): Quaternion {
    Quaternion(0.0, 0.0, 0.0, s)
  }

  /** Squared norm x² + y² + z² + w². */
  function Norm2(q: Quaternion): real {
    q.x * q.x + q.y * q.y + q.z * q.z + q.w * q.w
  }

  /** `==` on CMQuaternion: all four components agree. */
  function Equal(a: Quaternion, b: Quaternion): (r: bool)
    ensures r <==> a == b
  {
    a.x == b.x && a.y == b.y && a.z == b.z && a.w == b.w
  }

  // The four components of the Hamilton product, over plain reals: (ax, ay, az, aw) * (bx, bq, bz, bw).

  function ProductX(ax: real, ay: real, az: real, aw: real, bx: real, bq: real, bz: real, bw: real): real {
    aw * bx + ax * bw + ay * bz - az * bq
  }

  function ProductY(ax: real, ay: real, az: real, aw: real, bx: real, bq: real, bz: real, bw: real): real {
    aw * bq - ax * bz + ay * bw + az * bx
  }

  function ProductZ(ax: real, ay: real, az: real, aw: real, bx: real, bq: real, bz: real, bw: real): real {
    aw * bz + ax * bq - ay * bx + az * bw
  }

  function ProductW(ax: real, ay: real, az: real, aw: real, bx: real, bq: real, bz: real, bw: real): real {
    aw * bw - ax * bx - ay * bq - az * bz
  }

  /** The Hamilton product `a * b`. */
  function Mul(a: Quaternion, b: Quaternion): Quaternion {
    Quaternion(
      ProductX(a.x, a.y, a.z, a.w, b.x, b.y, b.z, b.w),
      ProductY(a.x, a.y, a.z, a.w, b.x, b.y, b.z, b.w),
      ProductZ(a.x, a.y, a.z, a.w, b.x, b.y, b.z, b.w),
      ProductW(a.x, a.y, a.z, a.w, b.x, b.y, b.z, b.w))
  }

  /** The conjugate, `inverse` in the source: the vector part is negated. */
  function Inverse(q: Quaternion): (r: Quaternion)
    ensures r.w == q.w && r.x == -q.x && r.y == -q.y && r.z == -q.z
  {
    Quaternion(-q.x, -q.y, -q.z, q.w)
  }

  /** The fixed remap of the device axes to the Ambisonic convention: (x, y, z, w) to (y, -x, z, w). */
  function ToAmbisonic(q: Quaternion): (r: Quaternion)
    ensures r.z == q.z && r.w == q.w
  {
    Quaternion(q.y, -q.x, q.z, q.w)
  }

  /** `min(max(t, -1), 1)`. */
  function ClampUnit(t: real): (r: real)
    ensures -1.0 <= r <= 1.0
    ensures -1.0 <= t <= 1.0 ==> r == t
    ensures t < -1.0 ==> r == -1.0
    ensures 1.0 < t ==> r == 1.0
  {
    if t < -1.0 then -1.0 else if 1.0 < t then 1.0 else t
  }

  /**
    The argument handed to `asin` for the pitch in `toTaitBryan`, as written: the
    clamp is applied to w*y - z*x, and the clamped value is doubled afterwards.
   */
  function PitchSineAsWritten(q: Quaternion): (r: real)
    ensures -2.0 <= r <= 2.0
  {
    2.0 * ClampUnit(q.w * q.y - q.z * q.x)
  }

  /**
    The argument `asin` needs for the pitch of a Tait-Bryan decomposition:
    2(w*y - z*x), clamped to asin's domain [-1, 1].
   */
  function PitchSine(q: Quaternion): (r: real)
    ensures -1.0 <= r <= 1.0
    ensures -1.0 <= 2.0 * (q.w * q.y - q.z * q.x) <= 1.0 ==> r == 2.0 * (q.w * q.y - q.z * q.x)
  {
    ClampUnit(2.0 * (q.w * q.y - q.z * q.x))
  }

  /** The pure quaternion (v, 0) built from a vector. */
  function Pure(v: Vector3): Quaternion {
    Quaternion(v.x, v.y, v.z, 0.0)
  }

  /** `a * b` for a vector b: the vector part of a * (b, 0) * conj(a). */
  function Rotate(a: Quaternion, v: Vector3): Vector3 {
    var q := Mul(Mul(a, Pure(v)), Inverse(a));
    Vector3(q.x, q.y, q.z)
  }

  /** Squared length of a vector. */
  function Length2(v: Vector3): real {
    v.x * v.x + v.y * v.y + v.z * v.z
  }

  // ---------------------------------------------------------------- the algebra

  lemma MulIdentityLeft(q: Quaternion)
    ensures Mul(Identity, q) == q
  {
  }

  lemma MulIdentityRight(q: Quaternion)
    ensures Mul(q, Identity) == q
  {
  }

  // Nonlinear identities are proved over plain reals, one component at a time; the
  // quaternion lemmas instantiate them with the components of their arguments. For
  // associativity, both groupings of the triple product expand to the same sum of monomials.

  /** Component x of the triple product p * q * r, as a signed sum of sixteen monomials. */
  function TripleX(px: real, py: real, pz: real, pw: real, qx: real, qy: real, qz: real, qw: real,
                  rx: real, ry: real, rz: real, rw: real): real {
    pw * qx * rw + px * qw * rw + py * qz * rw - pz * qy * rw
      + pw * qw * rx - px * qx * rx - py * qy * rx - pz * qz * rx
      - pw * qz * ry - px * qy * ry + py * qx * ry - pz * qw * ry
      + pw * qy * rz - px * qz * rz + py * qw * rz + pz * qx * rz
  }

  lemma ExpandLeftX(px: real, py: real, pz: real, pw: real, qx: real, qy: real, qz: real, qw: real,
                    rx: real, ry: real, rz: real, rw: real)
    ensures ProductX(
              ProductX(px, py, pz, pw, qx, qy, qz, qw),
              ProductY(px, py, pz, pw, qx, qy, qz, qw),
              ProductZ(px, py, pz, pw, qx, qy, qz, qw),
              ProductW(px, py, pz, pw, qx, qy, qz, qw), rx, ry, rz, rw)
         == TripleX(px, py, pz, pw, qx, qy, qz, qw, rx, ry, rz, rw)
  {
  }

  lemma ExpandRightX(px: real, py: real, pz: real, pw: real, qx: real, qy: real, qz: real, qw: real,
                     rx: real, ry: real, rz: real, rw: real)
    ensures ProductX(px, py, pz, pw,
              ProductX(qx, qy, qz, qw, rx, ry, rz, rw),
              ProductY(qx, qy, qz, qw, rx, ry, rz, rw),
              ProductZ(qx, qy, qz, qw, rx, ry, rz, rw),
              ProductW(qx, qy, qz, qw, rx, ry, rz, rw))
         == TripleX(px, py, pz, pw, qx, qy, qz, qw, rx, ry, rz, rw)
  {
  }

  lemma MulAssociativeX(a: Quaternion, b: Quaternion, c: Quaternion)
    ensures Mul(Mul(a, b), c).x == Mul(a, Mul(b, c)).x
  {
    ExpandLeftX(a.x, a.y, a.z, a.w, b.x, b.y, b.z, b.w, c.x, c.y, c.z, c.w);
    ExpandRightX(a.x, a.y, a.z, a.w, b.x, b.y, b.z, b.w, c.x, c.y, c.z, c.w);
  }

  /** Component y of the triple product p * q * r, as a signed sum of sixteen monomials. */
  function TripleY(px: real, py: real, pz: real, pw: real, qx: real, qy: real, qz: real, qw: real,
                  rx: real, ry: real, rz: real, rw: real): real {
    pw * qy * rw - px * qz * rw + py * qw * rw + pz * qx * rw
      + pw * qz * rx + px * qy * rx - py * qx * rx + pz * qw * rx
      + pw * qw * ry - px * qx * ry - py * qy * ry - pz * qz * ry
      - pw * qx * rz - px * qw * rz - py * qz * rz + pz * qy * rz
  }

  lemma ExpandLeftY(px: real, py: real, pz: real, pw: real, qx: real, qy: real, qz: real, qw: real,
                    rx: real, ry: real, rz: real, rw: real)
    ensures ProductY(
              ProductX(px, py, pz, pw, qx, qy, qz, qw),
              ProductY(px, py, pz, pw, qx, qy, qz, qw),
              ProductZ(px, py, pz, pw, qx, qy, qz, qw),
              ProductW(px, py, pz, pw, qx, qy, qz, qw), rx, ry, rz, rw)
         == TripleY(px, py, pz, pw, qx, qy, qz, qw, rx, ry, rz, rw)
  {
  }

  lemma ExpandRightY(px: real, py: real, pz: real, pw: real, qx: real, qy: real, qz: real, qw: real,
                     rx: real, ry: real, rz: real, rw: real)
    ensures ProductY(px, py, pz, pw,
              ProductX(qx, qy, qz, qw, rx, ry, rz, rw),
              ProductY(qx, qy, qz, qw, rx, ry, rz, rw),
              ProductZ(qx, qy, qz, qw, rx, ry, rz, rw),
              ProductW(qx, qy, qz, qw, rx, ry, rz, rw))
         == TripleY(px, py, pz, pw, qx, qy, qz, qw, rx, ry, rz, rw)
  {
  }

  lemma MulAssociativeY(a: Quaternion, b: Quaternion, c: Quaternion)
    ensures Mul(Mul(a, b), c).y == Mul(a, Mul(b, c)).y
  {
    ExpandLeftY(a.x, a.y, a.z, a.w, b.x, b.y, b.z, b.w, c.x, c.y, c.z, c.w);
    ExpandRightY(a.x, a.y, a.z, a.w, b.x, b.y, b.z, b.w, c.x, c.y, c.z, c.w);
  }

  /** Component z of the triple product p * q * r, as a signed sum of sixteen monomials. */
  function TripleZ(px: real, py: real, pz: real, pw: real, qx: real, qy: real, qz: real, qw: real,
                  rx: real, ry: real, rz: real, rw: real): real {
    pw * qz * rw + px * qy * rw - py * qx * rw + pz * qw * rw
      - pw * qy * rx + px * qz * rx - py * qw * rx - pz * qx * rx
      + pw * qx * ry + px * qw * ry + py * qz * ry - pz * qy * ry
      + pw * qw * rz - px * qx * rz - py * qy * rz - pz * qz * rz
  }

  lemma ExpandLeftZ(px: real, py: real, pz: real, pw: real, qx: real, qy: real, qz: real, qw: real,
                    rx: real, ry: real, rz: real, rw: real)
    ensures ProductZ(
              ProductX(px, py, pz, pw, qx, qy, qz, qw),
              ProductY(px, py, pz, pw, qx, qy, qz, qw),
              ProductZ(px, py, pz, pw, qx, qy, qz, qw),
              ProductW(px, py, pz, pw, qx, qy, qz, qw), rx, ry, rz, rw)
         == TripleZ(px, py, pz, pw, qx, qy, qz, qw, rx, ry, rz, rw)
  {
  }

  lemma ExpandRightZ(px: real, py: real, pz: real, pw: real, qx: real, qy: real, qz: real, qw: real,
                     rx: real, ry: real, rz: real, rw: real)
    ensures ProductZ(px, py, pz, pw,
              ProductX(qx, qy, qz, qw, rx, ry, rz, rw),
              ProductY(qx, qy, qz, qw, rx, ry, rz, rw),
              ProductZ(qx, qy, qz, qw, rx, ry, rz, rw),
              ProductW(qx, qy, qz, qw, rx, ry, rz, rw))
         == TripleZ(px, py, pz, pw, qx, qy, qz, qw, rx, ry, rz, rw)
  {
  }

  lemma MulAssociativeZ(a: Quaternion, b: Quaternion, c: Quaternion)
    ensures Mul(Mul(a, b), c).z == Mul(a, Mul(b, c)).z
  {
    ExpandLeftZ(a.x, a.y, a.z, a.w, b.x, b.y, b.z, b.w, c.x, c.y, c.z, c.w);
    ExpandRightZ(a.x, a.y, a.z, a.w, b.x, b.y, b.z, b.w, c.x, c.y, c.z, c.w);
  }

  /** Component w of the triple product p * q * r, as a signed sum of sixteen monomials. */
  function TripleW(px: real, py: real, pz: real, pw: real, qx: real, qy: real, qz: real, qw: real,
                  rx: real, ry: real, rz: real, rw: real): real {
    pw * qw * rw - px * qx * rw - py * qy * rw - pz * qz * rw
      - pw * qx * rx - px * qw * rx - py * qz * rx + pz * qy * rx
      - pw * qy * ry + px * qz * ry - py * qw * ry - pz * qx * ry
      - pw * qz * rz - px * qy * rz + py * qx * rz - pz * qw * rz
  }

  lemma ExpandLeftW(px: real, py: real, pz: real, pw: real, qx: real, qy: real, qz: real, qw: real,
                    rx: real, ry: real, rz: real, rw: real)
    ensures ProductW(
              ProductX(px, py, pz, pw, qx, qy, qz, qw),
              ProductY(px, py, pz, pw, qx, qy, qz, qw),
              ProductZ(px, py, pz, pw, qx, qy, qz, qw),
              ProductW(px, py, pz, pw, qx, qy, qz, qw), rx, ry, rz, rw)
         == TripleW(px, py, pz, pw, qx, qy, qz, qw, rx, ry, rz, rw)
  {
  }

  lemma ExpandRightW(px: real, py: real, pz: real, pw: real, qx: real, qy: real, qz: real, qw: real,
                     rx: real, ry: real, rz: real, rw: real)
    ensures ProductW(px, py, pz, pw,
              ProductX(qx, qy, qz, qw, rx, ry, rz, rw),
              ProductY(qx, qy, qz, qw, rx, ry, rz, rw),
              ProductZ(qx, qy, qz, qw, rx, ry, rz, rw),
              ProductW(qx, qy, qz, qw, rx, ry, rz, rw))
         == TripleW(px, py, pz, pw, qx, qy, qz, qw, rx, ry, rz, rw)
  {
  }

  lemma MulAssociativeW(a: Quaternion, b: Quaternion, c: Quaternion)
    ensures Mul(Mul(a, b), c).w == Mul(a, Mul(b, c)).w
  {
    ExpandLeftW(a.x, a.y, a.z, a.w, b.x, b.y, b.z, b.w, c.x, c.y, c.z, c.w);
    ExpandRightW(a.x, a.y, a.z, a.w, b.x, b.y, b.z, b.w, c.x, c.y, c.z, c.w);
  }

  /** The product is associative, so an unparenthesised chain `a * b * c` has one meaning. */
  lemma MulAssociative(a: Quaternion, b: Quaternion, c: Quaternion)
    ensures Mul(Mul(a, b), c) == Mul(a, Mul(b, c))
  {
    MulAssociativeX(a, b, c);
    MulAssociativeY(a, b, c);
    MulAssociativeZ(a, b, c);
    MulAssociativeW(a, b, c);
  }

  /** The product is not commutative: i * j = k but j * i = -k. */
  lemma MulNotCommutative()
    ensures Mul(Quaternion(1.0, 0.0, 0.0, 0.0), Quaternion(0.0, 1.0, 0.0, 0.0)) == Quaternion(0.0, 0.0, 1.0, 0.0)
    ensures Mul(Quaternion(0.0, 1.0, 0.0, 0.0), Quaternion(1.0, 0.0, 0.0, 0.0)) == Quaternion(0.0, 0.0, -1.0, 0.0)
    ensures Mul(Quaternion(1.0, 0.0, 0.0, 0.0), Quaternion(0.0, 1.0, 0.0, 0.0))
         != Mul(Quaternion(0.0, 1.0, 0.0, 0.0), Quaternion(1.0, 0.0, 0.0, 0.0))
  {
  }

  /** The identity is its own conjugate. */
  lemma InverseIdentity()
    ensures Inverse(Identity) == Identity
  {
  }

  /** The identity is a unit quaternion. */
  lemma IdentityNorm()
    ensures Norm2(Identity) == 1.0
  {
  }

  /** The conjugate keeps the squared norm. */
  lemma NormInverse(q: Quaternion)
    ensures Norm2(Inverse(q)) == Norm2(q)
  {
  }

  lemma InverseInvolution(q: Quaternion)
    ensures Inverse(Inverse(q)) == q
  {
  }

  /** conj(a * b) against conj(b) * conj(a), over plain reals. */
  lemma ConjugateProduct(ax: real, ay: real, az: real, aw: real, bx: real, bq: real, bz: real, bw: real)
    ensures -ProductX(ax, ay, az, aw, bx, bq, bz, bw) == ProductX(-bx, -bq, -bz, bw, -ax, -ay, -az, aw)
    ensures -ProductY(ax, ay, az, aw, bx, bq, bz, bw) == ProductY(-bx, -bq, -bz, bw, -ax, -ay, -az, aw)
    ensures -ProductZ(ax, ay, az, aw, bx, bq, bz, bw) == ProductZ(-bx, -bq, -bz, bw, -ax, -ay, -az, aw)
    ensures ProductW(ax, ay, az, aw, bx, bq, bz, bw) == ProductW(-bx, -bq, -bz, bw, -ax, -ay, -az, aw)
  {
  }

  /** The conjugate of a product is the product of the conjugates in reverse order. */
  lemma InverseOfProduct(a: Quaternion, b: Quaternion)
    ensures Inverse(Mul(a, b)) == Mul(Inverse(b), Inverse(a))
  {
    ConjugateProduct(a.x, a.y, a.z, a.w, b.x, b.y, b.z, b.w);
  }

  /** q * conj(q) and conj(q) * q, over plain reals. */
  lemma ConjugateNorm(qx: real, qy: real, qz: real, qw: real)
    ensures ProductX(qx, qy, qz, qw, -qx, -qy, -qz, qw) == 0.0 && ProductX(-qx, -qy, -qz, qw, qx, qy, qz, qw) == 0.0
    ensures ProductY(qx, qy, qz, qw, -qx, -qy, -qz, qw) == 0.0 && ProductY(-qx, -qy, -qz, qw, qx, qy, qz, qw) == 0.0
    ensures ProductZ(qx, qy, qz, qw, -qx, -qy, -qz, qw) == 0.0 && ProductZ(-qx, -qy, -qz, qw, qx, qy, qz, qw) == 0.0
    ensures ProductW(qx, qy, qz, qw, -qx, -qy, -qz, qw) == qx * qx + qy * qy + qz * qz + qw * qw
    ensures ProductW(-qx, -qy, -qz, qw, qx, qy, qz, qw) == qx * qx + qy * qy + qz * qz + qw * qw
  {
  }

  /** q * conj(q) and conj(q) * q are the real number |q|². */
  lemma MulInverse(q: Quaternion)
    ensures Mul(q, Inverse(q)) == Scalar(Norm2(q))
    ensures Mul(Inverse(q), q) == Scalar(Norm2(q))
  {
    ConjugateNorm(q.x, q.y, q.z, q.w);
  }

  /** For a unit quaternion the conjugate is the multiplicative inverse. */
  lemma UnitInverse(q: Quaternion)
    requires Norm2(q) == 1.0
    ensures Mul(q, Inverse(q)) == Identity && Mul(Inverse(q), q) == Identity
  {
    MulInverse(q);
  }

  /** Products with the real quaternion s, over plain reals. */
  lemma ScalarProduct(s: real, qx: real, qy: real, qz: real, qw: real)
    ensures ProductX(0.0, 0.0, 0.0, s, qx, qy, qz, qw) == s * qx && ProductX(qx, qy, qz, qw, 0.0, 0.0, 0.0, s) == s * qx
    ensures ProductY(0.0, 0.0, 0.0, s, qx, qy, qz, qw) == s * qy && ProductY(qx, qy, qz, qw, 0.0, 0.0, 0.0, s) == s * qy
    ensures ProductZ(0.0, 0.0, 0.0, s, qx, qy, qz, qw) == s * qz && ProductZ(qx, qy, qz, qw, 0.0, 0.0, 0.0, s) == s * qz
    ensures ProductW(0.0, 0.0, 0.0, s, qx, qy, qz, qw) == s * qw && ProductW(qx, qy, qz, qw, 0.0, 0.0, 0.0, s) == s * qw
  {
  }

  /** A real quaternion commutes with everything and scales every component. */
  lemma MulScalar(s: real, q: Quaternion)
    ensures Mul(Scalar(s), q) == Quaternion(s * q.x, s * q.y, s * q.z, s * q.w)
    ensures Mul(q, Scalar(s)) == Mul(Scalar(s), q)
  {
    ScalarProduct(s, q.x, q.y, q.z, q.w);
  }

  /** The product of two real quaternions. */
  lemma MulScalars(s: real, t: real)
    ensures Mul(Scalar(s), Scalar(t)) == Scalar(s * t)
  {
  }

  /** Euler's four-square identity, over plain reals. */
  lemma FourSquares(ax: real, ay: real, az: real, aw: real, bx: real, bq: real, bz: real, bw: real)
    ensures ProductX(ax, ay, az, aw, bx, bq, bz, bw) * ProductX(ax, ay, az, aw, bx, bq, bz, bw) + ProductY(ax, ay, az, aw, bx, bq, bz, bw) * ProductY(ax, ay, az, aw, bx, bq, bz, bw)
          + ProductZ(ax, ay, az, aw, bx, bq, bz, bw) * ProductZ(ax, ay, az, aw, bx, bq, bz, bw) + ProductW(ax, ay, az, aw, bx, bq, bz, bw) * ProductW(ax, ay, az, aw, bx, bq, bz, bw)
         == (ax * ax + ay * ay + az * az + aw * aw) * (bx * bx + bq * bq + bz * bz + bw * bw)
  {
  }

  /** The squared norm is multiplicative. */
  lemma NormMultiplicative(a: Quaternion, b: Quaternion)
    ensures Norm2(Mul(a, b)) == Norm2(a) * Norm2(b)
  {
    FourSquares(a.x, a.y, a.z, a.w, b.x, b.y, b.z, b.w);
  }

  /** The product of unit quaternions is a unit quaternion. */
  lemma UnitProduct(a: Quaternion, b: Quaternion)
    requires Norm2(a) == 1.0 && Norm2(b) == 1.0
    ensures Norm2(Mul(a, b)) == 1.0
  {
    NormMultiplicative(a, b);
  }

  // ---------------------------------------------------------------- the Ambisonic remap

  /** Two remaps negate x and y. */
  lemma AmbisonicTwice(q: Quaternion)
    ensures ToAmbisonic(ToAmbisonic(q)) == Quaternion(-q.x, -q.y, q.z, q.w)
  {
  }

  /** The remap keeps the squared norm, so unit quaternions stay unit. */
  lemma AmbisonicNorm(q: Quaternion)
    ensures Norm2(ToAmbisonic(q)) == Norm2(q)
  {
    assert (-q.x) * (-q.x) == q.x * q.x;
  }

  /** The remap has period four. */
  lemma AmbisonicFourTimes(q: Quaternion)
    ensures ToAmbisonic(ToAmbisonic(ToAmbisonic(ToAmbisonic(q)))) == q
  {
    AmbisonicTwice(q);
    AmbisonicTwice(ToAmbisonic(ToAmbisonic(q)));
  }

  /** The remap of a product against the product of the remaps, over plain reals. */
  lemma RemapProduct(ax: real, ay: real, az: real, aw: real, bx: real, bq: real, bz: real, bw: real)
    ensures ProductY(ax, ay, az, aw, bx, bq, bz, bw) == ProductX(ay, -ax, az, aw, bq, -bx, bz, bw)
    ensures -ProductX(ax, ay, az, aw, bx, bq, bz, bw) == ProductY(ay, -ax, az, aw, bq, -bx, bz, bw)
    ensures ProductZ(ax, ay, az, aw, bx, bq, bz, bw) == ProductZ(ay, -ax, az, aw, bq, -bx, bz, bw)
    ensures ProductW(ax, ay, az, aw, bx, bq, bz, bw) == ProductW(ay, -ax, az, aw, bq, -bx, bz, bw)
  {
  }

  /**
    The remap is a proper rotation of the axes, so it commutes with composition and
    with the conjugate: remapping a composed rotation is composing the remapped ones.
   */
  lemma AmbisonicHomomorphism(a: Quaternion, b: Quaternion)
    ensures ToAmbisonic(Mul(a, b)) == Mul(ToAmbisonic(a), ToAmbisonic(b))
    ensures ToAmbisonic(Inverse(a)) == Inverse(ToAmbisonic(a))
  {
    RemapProduct(a.x, a.y, a.z, a.w, b.x, b.y, b.z, b.w);
  }

  /** The remap on the axis-aligned quaternions. */
  lemma AmbisonicOnAxes()
    ensures ToAmbisonic(Quaternion(1.0, 0.0, 0.0, 0.0)) == Quaternion(0.0, -1.0, 0.0, 0.0)
    ensures ToAmbisonic(Quaternion(0.0, 1.0, 0.0, 0.0)) == Quaternion(1.0, 0.0, 0.0, 0.0)
    ensures ToAmbisonic(Quaternion(0.0, 0.0, 1.0, 0.0)) == Quaternion(0.0, 0.0, 1.0, 0.0)
    ensures ToAmbisonic(Identity) == Identity
  {
  }

  // ---------------------------------------------------------------- the pitch clamp

  /**
    For every quaternion of norm at most one, |w*y - z*x| <= 1/2, so the clamp as
    written never changes its argument and the doubled value is not confined to [-1, 1].
   */
  lemma PitchClampInactive(q: Quaternion)
    requires Norm2(q) <= 1.0
    ensures PitchSineAsWritten(q) == 2.0 * (q.w * q.y - q.z * q.x)
  {
    TwiceProductBound(q.x, q.y, q.z, q.w);
  }

  /** |2(w*y - z*x)| never exceeds x² + y² + z² + w². */
  lemma TwiceProductBound(x: real, y: real, z: real, w: real)
    ensures -(x * x + y * y + z * z + w * w) <= 2.0 * (w * y - z * x) <= x * x + y * y + z * z + w * w
  {
    TwiceProduct(w, y);
    TwiceProduct(w, -y);
    TwiceProduct(z, x);
    TwiceProduct(z, -x);
  }

  /**
    The nearest double-precision quaternion to a pitch of exactly 90 degrees, whose
    squared norm exceeds 1 by about 2e-16, one unit in the last place of a double at 1: the written `asin` argument leaves
    [-1, 1], while clamping after doubling keeps it at 1.
   */
  lemma PitchSineOutOfDomain()
    ensures Norm2(Quaternion(0.0, 0.7071067811865476, 0.0, 0.7071067811865476)) - 1.0 < 0.000000000000001
    ensures PitchSineAsWritten(Quaternion(0.0, 0.7071067811865476, 0.0, 0.7071067811865476)) > 1.0
    ensures PitchSine(Quaternion(0.0, 0.7071067811865476, 0.0, 0.7071067811865476)) == 1.0
  {
  }

  // ---------------------------------------------------------------- vector rotation

  /** The real part of (a * p) * conj(a) for a pure p, over plain reals. */
  lemma RotationRealPart(ax: real, ay: real, az: real, aw: real, px: real, py: real, pz: real)
    ensures ProductW(ProductX(ax, ay, az, aw, px, py, pz, 0.0), ProductY(ax, ay, az, aw, px, py, pz, 0.0), ProductZ(ax, ay, az, aw, px, py, pz, 0.0), ProductW(ax, ay, az, aw, px, py, pz, 0.0),
                     -ax, -ay, -az, aw) == 0.0
  {
  }

  /** a * (v, 0) * conj(a) is again a pure quaternion. */
  lemma RotationIsPure(a: Quaternion, v: Vector3)
    ensures Mul(Mul(a, Pure(v)), Inverse(a)).w == 0.0
  {
    RotationRealPart(a.x, a.y, a.z, a.w, v.x, v.y, v.z);
  }

  lemma RotateIdentity(v: Vector3)
    ensures Rotate(Identity, v) == v
  {
    MulIdentityLeft(Pure(v));
    InverseIdentity();
    MulIdentityRight(Pure(v));
  }

  /** Rotating scales the squared length by |a|⁴, so a unit quaternion preserves length. */
  lemma {:induction false} RotateLength(a: Quaternion, v: Vector3)
    ensures Length2(Rotate(a, v)) == Norm2(a) * Norm2(a) * Length2(v)
    ensures Norm2(a) == 1.0 ==> Length2(Rotate(a, v)) == Length2(v)
  {
    var p := Mul(a, Pure(v));
    var q := Mul(p, Inverse(a));
    RotationIsPure(a, v);
    NormMultiplicative(a, Pure(v));
    NormMultiplicative(p, Inverse(a));
    assert Norm2(q) == Length2(Rotate(a, v));
    assert Norm2(Pure(v)) == Length2(v);
  }

  /** Rotating by b and then by a is rotating by a * b. */
  lemma {:induction false} RotateCompose(a: Quaternion, b: Quaternion, v: Vector3)
    ensures Rotate(a, Rotate(b, v)) == Rotate(Mul(a, b), v)
  {
    var inner := Mul(Mul(b, Pure(v)), Inverse(b));
    RotationIsPure(b, v);
    assert Pure(Rotate(b, v)) == inner;
    calc {
      Mul(Mul(a, inner), Inverse(a));
      { MulAssociative(a, Mul(b, Pure(v)), Inverse(b)); }
      Mul(Mul(Mul(a, Mul(b, Pure(v))), Inverse(b)), Inverse(a));
      { MulAssociative(Mul(a, Mul(b, Pure(v))), Inverse(b), Inverse(a)); }
      Mul(Mul(a, Mul(b, Pure(v))), Mul(Inverse(b), Inverse(a)));
      { MulAssociative(a, b, Pure(v)); InverseOfProduct(a, b); }
      Mul(Mul(Mul(a, b), Pure(v)), Inverse(Mul(a, b)));
    }
  }
}
