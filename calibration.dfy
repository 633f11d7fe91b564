/**
  The look-and-nod calibration of Headitude/Calibration.swift: the idle and calibration
  quaternions, the similarity transform `apply`, the calibration computed by `finish`, and
  the eight doubles persisted under the "calibration" key.
 */
module Calibrations {
  import opened Reals
  import opened Wrappers
  import opened Quaternions
  import opened Accelerations

  /** A CoreMotion device-motion sample, reduced to what the calibration reads from it. */
  datatype Sample = Sample(attitude: Quaternion, gravity: Acceleration)

  // ---------------------------------------------------------------- apply

  /**
    What `apply` returns: the attitude q relative to the idle orientation, seen in the
    frame given by the calibration, `calibration.conjugated * (idle * q) * calibration`.
   */
  function Corrected(idle: Quaternion, calibration: Quaternion, q: Quaternion): Quaternion {
    Mul(Mul(Inverse(calibration), Mul(idle, q)), calibration)
  }

  /** With both quaternions at their initial identity value, `apply` returns its input. */
  lemma CorrectedIdentity(q: Quaternion)
    ensures Corrected(Identity, Identity, q) == q
  {
    MulIdentityLeft(q);
    InverseIdentity();
    MulIdentityRight(q);
  }

  /** The chain `conj(c) * steering * c` means the same grouped either way. */
  lemma CorrectedGrouping(idle: Quaternion, calibration: Quaternion, q: Quaternion)
    ensures Corrected(idle, calibration, q)
         == Mul(Inverse(calibration), Mul(Mul(idle, q), calibration))
  {
    MulAssociative(Inverse(calibration), Mul(idle, q), calibration);
  }

  /**
    After a reset on attitude r the idle quaternion is conj(r), and applying the
    calibration to r itself gives the real number |r|²|c|²: the identity for unit r and c.
   */
  lemma CorrectedAfterReset(r: Quaternion, calibration: Quaternion)
    ensures Corrected(Inverse(r), calibration, r) == Scalar(Norm2(r) * Norm2(calibration))
    ensures Norm2(r) == 1.0 && Norm2(calibration) == 1.0 ==> Corrected(Inverse(r), calibration, r) == Identity
  {
    var n, m := Norm2(r), Norm2(calibration);
    var c' := Inverse(calibration);
    MulInverse(r);
    MulScalar(n, c');
    MulAssociative(Scalar(n), c', calibration);
    MulInverse(calibration);
    MulScalars(n, m);
    if n == 1.0 && m == 1.0 {
      assert n * m == 1.0;
    }
  }

  /** `apply` multiplies the squared norm of its input by those of idle and calibration. */
  lemma CorrectedNorm(idle: Quaternion, calibration: Quaternion, q: Quaternion)
    ensures Norm2(Corrected(idle, calibration, q))
         == Norm2(calibration) * (Norm2(idle) * Norm2(q)) * Norm2(calibration)
    ensures Norm2(idle) == 1.0 && Norm2(calibration) == 1.0 ==> Norm2(Corrected(idle, calibration, q)) == Norm2(q)
  {
    var c' := Inverse(calibration);
    NormMultiplicative(idle, q);
    NormMultiplicative(c', Mul(idle, q));
    NormMultiplicative(Mul(c', Mul(idle, q)), calibration);
    NormInverse(calibration);
  }

  // ---------------------------------------------------------------- finish

  /** The three axes computed by `finish`, as vectors in device coordinates. */
  datatype Frame = Frame(x: Acceleration, y: Acceleration, z: Acceleration)

  /**
    Lines 75-77 of `finish`: z points against the idle gravity, x is normal to both the
    gravity during the nod and the idle down direction, and y completes the frame.
    `None` exactly where one of the three `normalized()` calls would divide by zero.
   */
  function Axes(idleGravity: Acceleration, gravity: Acceleration, sqrt: real -> real): Option<Frame> {
    var down := Scaled(idleGravity, -1.0);
    var nod := Cross(gravity, down);
    if Magnitude(down, sqrt) == 0.0 || Magnitude(nod, sqrt) == 0.0 then None
    else
      var z := Normalized(down, sqrt);
      var x := Normalized(nod, sqrt);
      var side := Cross(z, x);
      if Magnitude(side, sqrt) == 0.0 then None
      else Some(Frame(x, Normalized(side, sqrt), z))
  }

  /**
    Lines 79-82 of `finish`: the quaternion of the frame by the trace formula, with
    w = sqrt(1 + x.x + y.y + z.z) / 2. `None` where `1 / (4w)` would divide by zero.
   */
  function FrameQuaternion(frame: Frame, sqrt: real -> real): Option<Quaternion> {
    var w := 0.5 * sqrt(1.0 + frame.x.x + frame.y.y + frame.z.z);
    if w == 0.0 then None
    else
      var f := 1.0 / (4.0 * w);
      Some(Quaternion(f * (frame.y.z - frame.z.y), f * (frame.z.x - frame.x.z), f * (frame.x.y - frame.y.x), w))
  }

  /** The calibration quaternion `finish` computes from the idle gravity and the nod gravity. */
  function LookAndNod(idleGravity: Acceleration, gravity: Acceleration, sqrt: real -> real): Option<Quaternion> {
    match Axes(idleGravity, gravity, sqrt)
    case None => None
    case Some(frame) => FrameQuaternion(frame, sqrt)
  }

  lemma UnitLagrange(s: real, a: real, b: real, c: real)
    requires s == a * b - c * c
    requires a == 1.0 && b == 1.0 && c == 0.0
    ensures s == 1.0
  {
  }

  /**
    The axes exist exactly when the idle gravity is non-zero and the nod gravity is not
    parallel to it; the third normalisation never divides by zero.
   */
  lemma AxesDefined(idleGravity: Acceleration, gravity: Acceleration, sqrt: real -> real)
    requires IsSqrt(sqrt)
    ensures Axes(idleGravity, gravity, sqrt).Some? <==> idleGravity != Origin && Cross(gravity, idleGravity) != Origin
  {
    var down := Scaled(idleGravity, -1.0);
    var nod := Cross(gravity, down);
    DownZero(idleGravity, sqrt);
    NodZero(idleGravity, gravity, sqrt);
    if Magnitude(down, sqrt) != 0.0 && Magnitude(nod, sqrt) != 0.0 {
      SideUnit(Normalized(down, sqrt), Normalized(nod, sqrt), down, gravity, sqrt);
    }
  }

  lemma DownZero(idleGravity: Acceleration, sqrt: real -> real)
    requires IsSqrt(sqrt)
    ensures Magnitude(Scaled(idleGravity, -1.0), sqrt) == 0.0 <==> idleGravity == Origin
  {
    var down := Scaled(idleGravity, -1.0);
    MagnitudeZero(down, sqrt);
    NegatedZero(idleGravity);
  }

  lemma NodZero(idleGravity: Acceleration, gravity: Acceleration, sqrt: real -> real)
    requires IsSqrt(sqrt)
    ensures Magnitude(Cross(gravity, Scaled(idleGravity, -1.0)), sqrt) == 0.0 <==> Cross(gravity, idleGravity) == Origin
  {
    MagnitudeZero(Cross(gravity, Scaled(idleGravity, -1.0)), sqrt);
    CrossScaledRight(gravity, idleGravity, -1.0);
    NegatedZero(Cross(gravity, idleGravity));
  }

  /** The cross product of the first two axes is non-zero, indeed of unit length. */
  lemma SideUnit(z: Acceleration, x: Acceleration, down: Acceleration, gravity: Acceleration, sqrt: real -> real)
    requires IsSqrt(sqrt)
    requires Magnitude(down, sqrt) != 0.0 && Magnitude(Cross(gravity, down), sqrt) != 0.0
    requires z == Normalized(down, sqrt) && x == Normalized(Cross(gravity, down), sqrt)
    ensures Dot(z, x) == 0.0
    ensures Dot(Cross(z, x), Cross(z, x)) == 1.0
    ensures Magnitude(Cross(z, x), sqrt) == 1.0
  {
    var nod := Cross(gravity, down);
    NormalizedUnit(down, sqrt);
    NormalizedUnit(nod, sqrt);
    CrossOrthogonal(gravity, down);
    DotSymmetric(down, nod);
    NormalizedOrthogonal(down, nod, sqrt);
    DotSymmetric(down, x);
    NormalizedOrthogonal(x, down, sqrt);
    DotSymmetric(x, z);
    Lagrange(z, x);
    UnitLagrange(Dot(Cross(z, x), Cross(z, x)), Dot(z, z), Dot(x, x), Dot(z, x));
    RootOfOne(Magnitude(Cross(z, x), sqrt));
  }

  /**
    The axes form a right-handed orthonormal frame: each has unit length, y is z × x,
    z points against the idle gravity, and x is orthogonal to the nod gravity.
   */
  lemma AxesOrthonormal(idleGravity: Acceleration, gravity: Acceleration, sqrt: real -> real)
    requires IsSqrt(sqrt)
    requires Axes(idleGravity, gravity, sqrt).Some?
    ensures var f := Axes(idleGravity, gravity, sqrt).value;
      && Dot(f.x, f.x) == 1.0 && Dot(f.y, f.y) == 1.0 && Dot(f.z, f.z) == 1.0
      && Dot(f.z, f.x) == 0.0 && Dot(f.y, f.z) == 0.0 && Dot(f.y, f.x) == 0.0
      && f.y == Cross(f.z, f.x)
      && Scaled(f.z, Magnitude(Scaled(idleGravity, -1.0), sqrt)) == Scaled(idleGravity, -1.0)
      && Dot(gravity, f.x) == 0.0
  {
    var down := Scaled(idleGravity, -1.0);
    var nod := Cross(gravity, down);
    var f := Axes(idleGravity, gravity, sqrt).value;
    SideUnit(f.z, f.x, down, gravity, sqrt);
    var side := Cross(f.z, f.x);
    assert f.y == side;
    NormalizedUnit(down, sqrt);
    NormalizedUnit(nod, sqrt);
    CrossOrthogonal(f.z, f.x);
    DotSymmetric(f.z, side);
    DotSymmetric(f.x, side);
    NormalizedParallel(down, sqrt);
    CrossOrthogonal(gravity, down);
    NormalizedOrthogonal(gravity, nod, sqrt);
  }

  /** Without a nod, the gravity stays parallel to the idle gravity and there is no frame. */
  lemma NoNodNoCalibration(idleGravity: Acceleration, s: real, sqrt: real -> real)
    requires IsSqrt(sqrt)
    ensures LookAndNod(idleGravity, Scaled(idleGravity, s), sqrt) == None
  {
    AxesDefined(idleGravity, Scaled(idleGravity, s), sqrt);
    CrossScaledLeft(idleGravity, idleGravity, s);
    CrossSelf(idleGravity);
  }

  /**
    The quaternion is defined exactly when the radicand 1 + x.x + y.y + z.z is non-zero;
    its real part is then positive with 4w² equal to the radicand, and each vector
    component times 4w is the matching difference of frame entries.
   */
  lemma FrameQuaternionParts(frame: Frame, sqrt: real -> real)
    requires IsSqrt(sqrt)
    requires 0.0 <= 1.0 + frame.x.x + frame.y.y + frame.z.z
    ensures FrameQuaternion(frame, sqrt).Some? <==> 1.0 + frame.x.x + frame.y.y + frame.z.z != 0.0
    ensures FrameQuaternion(frame, sqrt).Some? ==>
      var q := FrameQuaternion(frame, sqrt).value;
      && 0.0 < q.w
      && 4.0 * (q.w * q.w) == 1.0 + frame.x.x + frame.y.y + frame.z.z
      && q.x * (4.0 * q.w) == frame.y.z - frame.z.y
      && q.y * (4.0 * q.w) == frame.z.x - frame.x.z
      && q.z * (4.0 * q.w) == frame.x.y - frame.y.x
  {
    var t := 1.0 + frame.x.x + frame.y.y + frame.z.z;
    var root := sqrt(t);
    if root == 0.0 {
      assert root * root == 0.0;
    } else {
      if t == 0.0 {
        SquareZero(root);
      }
      var w := 0.5 * root;
      assert 4.0 * (w * w) == root * root;
    }
  }

  /** A frame already aligned with the device axes gives the identity calibration. */
  lemma AlignedFrameQuaternion(sqrt: real -> real)
    requires IsSqrt(sqrt)
    ensures FrameQuaternion(Frame(Acceleration(1.0, 0.0, 0.0), Acceleration(0.0, 1.0, 0.0), Acceleration(0.0, 0.0, 1.0)), sqrt)
         == Some(Identity)
  {
    var root := sqrt(4.0);
    assert (root - 2.0) * (root + 2.0) == 0.0;
    ZeroProduct(root - 2.0, root + 2.0);
  }

  // ---------------------------------------------------------------- persistence

  /** `CalibrationStorageType`: the eight doubles written to the "calibration" store. */
  datatype CalibrationStorage = CalibrationStorage(
    calibrationW: real, calibrationX: real, calibrationY: real, calibrationZ: real,
    idleW: real, idleX: real, idleY: real, idleZ: real)

  /**
    The persisted `Data`: `Empty` is the zero-length default of the store, and an object
    maps the JSON keys written by the synthesized `Codable` conformance to numbers.
   */
  datatype Stored = Empty | Object(fields: map<string, real>)

  const StorageKeys: set<string> :=
    {"calibrationW", "calibrationX", "calibrationY", "calibrationZ", "idleW", "idleX", "idleY", "idleZ"}

  function Storage(calibration: Quaternion, idle: Quaternion): CalibrationStorage {
    CalibrationStorage(calibration.w, calibration.x, calibration.y, calibration.z, idle.w, idle.x, idle.y, idle.z)
  }

  function StoredCalibration(s: CalibrationStorage): Quaternion {
    Quaternion(s.calibrationX, s.calibrationY, s.calibrationZ, s.calibrationW)
  }

  function StoredIdle(s: CalibrationStorage): Quaternion {
    Quaternion(s.idleX, s.idleY, s.idleZ, s.idleW)
  }

  function Encode(s: CalibrationStorage): (r: Stored)
    ensures r.Object? && r.fields.Keys == StorageKeys
  {
    Object(map[
      "calibrationW" := s.calibrationW, "calibrationX" := s.calibrationX,
      "calibrationY" := s.calibrationY, "calibrationZ" := s.calibrationZ,
      "idleW" := s.idleW, "idleX" := s.idleX, "idleY" := s.idleY, "idleZ" := s.idleZ])
  }

  /** Decoding succeeds on an object carrying all eight keys; extra keys are ignored. */
  function Decode(d: Stored): (r: Option<CalibrationStorage>)
    ensures r.Some? <==> d.Object? && StorageKeys <= d.fields.Keys
  {
    if d.Object? && StorageKeys <= d.fields.Keys then
      var m := d.fields;
      Some(CalibrationStorage(
        m["calibrationW"], m["calibrationX"], m["calibrationY"], m["calibrationZ"],
        m["idleW"], m["idleX"], m["idleY"], m["idleZ"]))
    else
      None
  }

  /** The zero-length default of the store never decodes. */
  lemma DecodeEmpty()
    ensures Decode(Empty).None?
  {
  }

  lemma DecodeEncode(s: CalibrationStorage)
    ensures Decode(Encode(s)) == Some(s)
  {
  }

  /** Whatever decodes, re-encodes to the same values under the same keys. */
  lemma EncodeDecode(d: Stored)
    requires Decode(d).Some?
    ensures forall k :: k in StorageKeys ==> Encode(Decode(d).value).fields[k] == d.fields[k]
  {
  }

  /** Storing and then restoring gives back both quaternions field for field. */
  lemma StoreRestore(calibration: Quaternion, idle: Quaternion)
    ensures Decode(Encode(Storage(calibration, idle))).Some?
    ensures StoredCalibration(Decode(Encode(Storage(calibration, idle))).value) == calibration
    ensures StoredIdle(Decode(Encode(Storage(calibration, idle))).value) == idle
  {
    DecodeEncode(Storage(calibration, idle));
  }

  // ---------------------------------------------------------------- the class

  /**
    `Calibration`: a persisted store, the latest sample and the calibration state. The
    store is a plain field; the JSON coders and `@AppStorage` are modelled by Encode and
    Decode above.
   */
  class Calibration {
    var calibrationStore: Stored
    var data: Sample
    var idleGravity: Acceleration
    var idleQuaternion: Quaternion
    var calibration: Quaternion

    /** `init()`: identity defaults, then whatever the persisted store restores. */
    constructor(store: Stored, initial: Sample)
      ensures calibrationStore == store && data == initial && idleGravity == Origin
      ensures Decode(store).None? ==> idleQuaternion == Identity && calibration == Identity
      ensures Decode(store).Some? ==>
        calibration == StoredCalibration(Decode(store).value) && idleQuaternion == StoredIdle(Decode(store).value)
    {
      calibrationStore := store;
      data := initial;
      idleGravity := Origin;
      idleQuaternion := Identity;
      calibration := Identity;
      new;
      RestoreCalibration();
    }

    method Update(sample: Sample)
      modifies this`data
      ensures data == sample
    {
      data := sample;
    }

    /** Leaves both quaternions alone when the store does not decode. */
    method RestoreCalibration()
      modifies this`calibration, this`idleQuaternion
      ensures Decode(calibrationStore).None? ==>
        calibration == old(calibration) && idleQuaternion == old(idleQuaternion)
      ensures Decode(calibrationStore).Some? ==>
        calibration == StoredCalibration(Decode(calibrationStore).value)
        && idleQuaternion == StoredIdle(Decode(calibrationStore).value)
    {
      var decoded := Decode(calibrationStore);
      if decoded.None? {
        return;
      }
      calibration := StoredCalibration(decoded.value);
      idleQuaternion := StoredIdle(decoded.value);
    }

    /** Writes both quaternions; restoring afterwards gives them back (see StoreRestore). */
    method StoreCalibration()
      modifies this`calibrationStore
      ensures calibrationStore == Encode(Storage(calibration, idleQuaternion))
      ensures Decode(calibrationStore).Some?
      ensures StoredCalibration(Decode(calibrationStore).value) == calibration
      ensures StoredIdle(Decode(calibrationStore).value) == idleQuaternion
    {
      var encoded := Encode(Storage(calibration, idleQuaternion));
      StoreRestore(calibration, idleQuaternion);
      calibrationStore := encoded;
    }

    method Apply(to: Quaternion) returns (r: Quaternion)
      ensures r == Corrected(idleQuaternion, calibration, to)
    {
      var steering := Mul(idleQuaternion, to);
      r := Mul(Mul(Inverse(calibration), steering), calibration);
    }

    /** The current attitude becomes the idle orientation; idempotent for a fixed sample. */
    method ResetOrientation()
      modifies this`idleQuaternion
      ensures idleQuaternion == Inverse(data.attitude)
    {
      idleQuaternion := Inverse(data.attitude);
    }

    method Start()
      modifies this`idleGravity, this`idleQuaternion
      ensures idleGravity == data.gravity
      ensures idleQuaternion == Inverse(data.attitude)
    {
      idleGravity := Copy(data.gravity);
      ResetOrientation();
    }

    /** Computes the look-and-nod calibration from the idle and current gravity, then stores. */
    method Finish(sqrt: real -> real)
      requires LookAndNod(idleGravity, data.gravity, sqrt).Some?
      modifies this`calibration, this`calibrationStore
      ensures calibration == LookAndNod(idleGravity, data.gravity, sqrt).value
      ensures calibrationStore == Encode(Storage(calibration, idleQuaternion))
    {
      var axes := Axes(idleGravity, data.gravity, sqrt).value;
      calibration := FrameQuaternion(axes, sqrt).value;
      StoreCalibration();
    }
  }

  /**
    A first launch, with nothing persisted: `apply` passes attitudes through, and after
    `start` on a sample with unit attitude r, applying to r gives the identity.
   */
  method FirstLaunch(initial: Sample, sample: Sample, q: Quaternion) returns (before: Quaternion, after: Quaternion)
    ensures before == q
    ensures Norm2(sample.attitude) == 1.0 ==> after == Identity
  {
    var c := new Calibration(Empty, initial);
    DecodeEmpty();
    before := c.Apply(q);
    CorrectedIdentity(q);
    c.Update(sample);
    c.Start();
    assert c.idleQuaternion == Inverse(sample.attitude) && c.calibration == Identity;
    after := c.Apply(sample.attitude);
    IdentityNorm();
    CorrectedAfterReset(sample.attitude, Identity);
  }
}
