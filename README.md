# Headitude core in Dafny

Headitude is a macOS head tracker. It reads the attitude of AirPods-style headphones
from CoreMotion and sends yaw, pitch and roll as OSC messages to a spatial audio
renderer (by default the IEM SceneRotator). This project models its three computational pieces.

- **Quaternion and vector algebra** (`quaternion.dfy`, `acceleration.dfy`, with arithmetic
  facts in `reals.dfy`):
  - the Hamilton product;
  - the conjugate, which the source calls `inverse`;
  - the remap from device axes to the Ambisonic convention;
  - the pitch clamp of the Tait-Bryan decomposition;
  - rotation of a vector;
  - cross and dot products, scaling, copying and normalisation of gravity vectors.

  Components are exact reals.
- **Calibration** (`calibration.dfy`, `motion_detector.dfy`):
  - the relative-orientation transform `conj(c) * (idle * q) * c`;
  - the "look-and-nod" computation of the calibration quaternion `c` from the gravity seen
    while the user looks straight ahead and the gravity seen while they nod;
  - persistence of the eight numbers that describe the state.

  The newer `Calibration` class and the older copy inside `HeadphoneMotionDetector` are
  modelled separately, each as a class whose fields change through methods.
- **OSC message pattern** (`osc_sender.dfy`):
  - the user's pattern is split on spaces, and empty pieces are dropped;
  - the first part is the OSC address;
  - each later part is one of `yaw`, `pitch`, `roll`, each optionally followed by `+` and
    optionally preceded by one `-`;
  - an unknown part suppresses the send and clears `protocolValid`.

`utilities.dfy` has `rad2deg` and the channel computation of `Color(hex:alpha:)`.

Modelling choices:
- **Square roots.** Every square root is a parameter `sqrt: real -> real`. Results that
  depend on it require `Reals.IsSqrt(sqrt)`: for each `t >= 0`, `sqrt(t) >= 0` and
  `sqrt(t) * sqrt(t) == t`.
- **Sensor samples.** A sample is the record `Calibrations.Sample`, holding the attitude
  and the gravity.
- **Network send.** `Osc.OscSender.SetQuaternion` returns the datagram it would hand to
  the OSC client.
- **Callbacks.** The detector's callbacks (`onUpdate`, `onConnectionStatusChanged`)
  become out-parameters that say whether the callback runs, and with which argument.
- **Persisted store.** The persisted `Data` is `Calibrations.Stored`:
  - the zero-length default, which never decodes (`Empty`);
  - or a JSON object from keys to numbers.
- **Model-only members.** Two scenario methods, `Calibrations.FirstLaunch` and
  `MotionDetectors.FirstSamples`, drive the classes and state what a user observes.
  They do not exist in the source.

Two behaviours of the code worth knowing before reading the model:
- **Pitch clamp.** `toTaitBryan` clamps `w*y - z*x` before doubling it, so the clamp
  does not keep the argument of `asin` inside [-1, 1]. The model states the written
  form, exhibits an input it lets through, and uses the clamp after doubling (see
  Findings).
- **Failed decode.** `restoreCalibration` leaves the current quaternions as they are
  when decoding fails. From `init` those are the identity defaults; on a later call they
  are whatever the object holds. This is why `RestoreCalibration`'s contract speaks of
  the old values.

All the `.dfy` files are verified together, as one project:
`dafny verify --resource-limit 2000000 --verification-time-limit 0 *.dfy`.

## Model

| member | source | states |
|---|---|---|
| Quaternions.Mul | Headitude/QuaternionExtension.swift:35-42 | the Hamilton product; MulIdentityLeft, MulIdentityRight, MulAssociative, MulNotCommutative and NormMultiplicative state its algebra |
| Quaternions.Norm2 | Headitude/QuaternionExtension.swift:44-46 | the squared norm; by MulInverse, q * inverse(q) is the real quaternion Norm2(q), so `inverse` inverts exactly the unit quaternions |
| Quaternions.Rotate | Headitude/QuaternionExtension.swift:67-71 | the vector part of a * (v, 0) * inverse(a); RotationIsPure, RotateIdentity, RotateLength and RotateCompose state what it does |
| Quaternions.Equal | Headitude/QuaternionExtension.swift:19-21 | `==` holds exactly when the two quaternions are equal, i.e. all four components agree |
| Quaternions.Inverse | Headitude/QuaternionExtension.swift:44-46 | the conjugate negates x, y and z and keeps w |
| Quaternions.ToAmbisonic | Headitude/QuaternionExtension.swift:48-50 | the remap keeps the z and w components |
| Quaternions.ClampUnit | Headitude/QuaternionExtension.swift:60 | `min(max(t, -1), 1)` lies in [-1, 1], is t inside that interval and the nearer bound outside it |
| Quaternions.PitchSineAsWritten | Headitude/QuaternionExtension.swift:60 | the `asin` argument as written lies in [-2, 2] and not necessarily in [-1, 1] |
| Quaternions.PitchSine | Headitude/QuaternionExtension.swift:60 | corrected argument: lies in [-1, 1] and equals 2(wy - zx) whenever that is already in [-1, 1] |
| Quaternions.MulIdentityLeft | Headitude/QuaternionExtension.swift:35-42 | the identity (0,0,0,1) is a left unit of the Hamilton product |
| Quaternions.MulIdentityRight | Headitude/QuaternionExtension.swift:35-42 | the identity is a right unit of the Hamilton product |
| Quaternions.MulAssociative | Headitude/QuaternionExtension.swift:35-42 | the product is associative, so `a * b * c` means the same in either grouping |
| Quaternions.MulNotCommutative | Headitude/QuaternionExtension.swift:35-42 | i * j = k and j * i = -k, so the product does not commute |
| Quaternions.InverseIdentity | Headitude/QuaternionExtension.swift:44-46 | the identity (0, 0, 0, 1) is its own conjugate |
| Quaternions.IdentityNorm | Headitude/Calibration.swift:31-32 | the initial idle and calibration quaternion (0, 0, 0, 1) is a unit quaternion |
| Quaternions.NormInverse | Headitude/QuaternionExtension.swift:44-46 | the conjugate keeps the squared norm |
| Quaternions.InverseInvolution | Headitude/QuaternionExtension.swift:44-46 | conjugating twice gives the quaternion back |
| Quaternions.InverseOfProduct | Headitude/QuaternionExtension.swift:35-46 | conj(a * b) = conj(b) * conj(a) |
| Quaternions.MulInverse | Headitude/QuaternionExtension.swift:35-46 | q * conj(q) = conj(q) * q = (0, 0, 0, x² + y² + z² + w²) |
| Quaternions.UnitInverse | Headitude/QuaternionExtension.swift:35-46 | for a unit quaternion the conjugate is a two-sided inverse |
| Quaternions.MulScalar | Headitude/QuaternionExtension.swift:35-42 | multiplying by a real quaternion scales every component, on either side |
| Quaternions.MulScalars | Headitude/QuaternionExtension.swift:35-42 | the product of two real quaternions is the real quaternion of the product |
| Quaternions.NormMultiplicative | Headitude/QuaternionExtension.swift:35-42 | the squared norm of a product is the product of the squared norms (four-square identity) |
| Quaternions.UnitProduct | Headitude/QuaternionExtension.swift:35-42 | the product of unit quaternions is a unit quaternion |
| Quaternions.AmbisonicNorm | Headitude/QuaternionExtension.swift:48-50 | the remap keeps the squared norm |
| Quaternions.AmbisonicTwice | Headitude/QuaternionExtension.swift:48-50 | remapping twice negates x and y and keeps z and w |
| Quaternions.AmbisonicFourTimes | Headitude/QuaternionExtension.swift:48-50 | remapping four times is the identity |
| Quaternions.AmbisonicHomomorphism | Headitude/QuaternionExtension.swift:35-50 | the remap commutes with the product and with the conjugate |
| Quaternions.AmbisonicOnAxes | Headitude/QuaternionExtension.swift:48-50 | the remap sends i to -j, j to i, and keeps k and the identity |
| Quaternions.PitchClampInactive | Headitude/QuaternionExtension.swift:60 | for squared norm at most 1 the clamp as written never changes its argument, so the value passed to `asin` is 2(wy - zx) unclamped |
| Quaternions.PitchSineOutOfDomain | Headitude/QuaternionExtension.swift:60 | the nearest double to the 90-degree-pitch quaternion, whose squared norm exceeds 1 by about 2e-16, makes the written argument exceed 1; the corrected one is 1 |
| Quaternions.RotationIsPure | Headitude/QuaternionExtension.swift:67-71 | a * (v, 0) * conj(a) has real part 0, so dropping w loses nothing |
| Quaternions.RotateIdentity | Headitude/QuaternionExtension.swift:67-71 | rotating by the identity returns the vector |
| Quaternions.RotateLength | Headitude/QuaternionExtension.swift:67-71 | rotation scales the squared length by abs(a)⁴, so a unit quaternion preserves length |
| Quaternions.RotateCompose | Headitude/QuaternionExtension.swift:67-71 | rotating by b, then by a is rotating by a * b |
| Accelerations.Cross | Headitude/Utilities/AccelerationExtension.swift:12-16 | the cross product; CrossAntiCommutative, CrossSelf, CrossOrthogonal, Lagrange and CrossScaledLeft/Right state its properties |
| Accelerations.Dot | Headitude/Utilities/AccelerationExtension.swift:18-20 | the dot product; DotSymmetric and Lagrange relate it to the cross product |
| Accelerations.Scaled | Headitude/Utilities/AccelerationExtension.swift:31-33 | componentwise scaling; ScaledOne, ScaledCompose, ScaledNegateTwice and NegatedZero state its algebra |
| Accelerations.Normalized | Headitude/Utilities/AccelerationExtension.swift:26-29 | division by the magnitude; NormalizedUnit, NormalizedParallel and NormalizedOrthogonal state that the result is the unit vector in the same direction |
| Accelerations.Magnitude | Headitude/Utilities/AccelerationExtension.swift:22-24 | the magnitude is non-negative and squares to v·v |
| Accelerations.Copy | Headitude/Utilities/AccelerationExtension.swift:35-37 | the copy is componentwise equal to the original |
| Accelerations.CrossAntiCommutative | Headitude/Utilities/AccelerationExtension.swift:12-16 | a × b = -(b × a) |
| Accelerations.CrossSelf | Headitude/Utilities/AccelerationExtension.swift:12-16 | a × a = 0 |
| Accelerations.CrossOrthogonal | Headitude/Utilities/AccelerationExtension.swift:12-20 | a × b is orthogonal to a and to b |
| Accelerations.DotSymmetric | Headitude/Utilities/AccelerationExtension.swift:18-20 | a·b = b·a |
| Accelerations.Lagrange | Headitude/Utilities/AccelerationExtension.swift:12-20 | abs(a × b)² = abs(a)² abs(b)² - (a·b)² |
| Accelerations.ScaledOne | Headitude/Utilities/AccelerationExtension.swift:31-33 | `scaled(1)` is the identity |
| Accelerations.ScaledCompose | Headitude/Utilities/AccelerationExtension.swift:31-33 | `scaled(f).scaled(g)` = `scaled(f * g)` |
| Accelerations.ScaledNegateTwice | Headitude/Utilities/AccelerationExtension.swift:31-33 | `scaled(-1)` applied twice is the identity |
| Accelerations.NegatedZero | Headitude/Utilities/AccelerationExtension.swift:31-33 | `scaled(-1)` gives the zero vector exactly from the zero vector |
| Accelerations.CrossScaledRight | Headitude/Utilities/AccelerationExtension.swift:12-16 | a × (b scaled by s) = (a × b) scaled by s |
| Accelerations.CrossScaledLeft | Headitude/Utilities/AccelerationExtension.swift:12-16 | (a scaled by s) × b = (a × b) scaled by s |
| Accelerations.MagnitudeZero | Headitude/Utilities/AccelerationExtension.swift:22-24 | the magnitude is zero exactly for the zero vector, which is where `normalized()` divides by zero |
| Accelerations.NormalizedUnit | Headitude/Utilities/AccelerationExtension.swift:26-29 | a normalised vector has unit length |
| Accelerations.NormalizedParallel | Headitude/Utilities/AccelerationExtension.swift:26-29 | normalising keeps the direction: v × n = 0, v·n = abs(v), and n scaled by abs(v) is v |
| Accelerations.NormalizedOrthogonal | Headitude/Utilities/AccelerationExtension.swift:26-29 | normalising keeps orthogonality to any vector |
| Utilities.Rad2Deg | Headitude/Utilities/Utilities.swift:11-13 | rad2deg(x) · π = 180 x |
| Utilities.Rad2DegOdd | Headitude/Utilities/Utilities.swift:11-13 | rad2deg(-x) = -rad2deg(x) |
| Utilities.Rad2DegLinear | Headitude/Utilities/Utilities.swift:11-13 | rad2deg is additive and homogeneous |
| Utilities.Rad2DegPi | Headitude/Utilities/Utilities.swift:11-13 | rad2deg(π) = 180 and rad2deg(0) = 0 |
| Utilities.RedByte | Headitude/Utilities/Utilities.swift:29 | `(hex & 0xFF0000) >> 16` is a byte |
| Utilities.GreenByte | Headitude/Utilities/Utilities.swift:30 | `(hex & 0x00FF00) >> 8` is a byte |
| Utilities.BlueByte | Headitude/Utilities/Utilities.swift:31 | `hex & 0x0000FF` is a byte |
| Utilities.Channel | Headitude/Utilities/Utilities.swift:29-31 | a byte divided by 255 lies in [0, 1] and times 255 gives the byte back |
| Utilities.ColorFromHex | Headitude/Utilities/Utilities.swift:26-33 | all three channels lie in [0, 1] and the opacity is `alpha` unchanged |
| Utilities.BytesRecombine | Headitude/Utilities/Utilities.swift:29-31 | the three bytes reassemble the low 24 bits of hex |
| Utilities.HighBitsIgnored | Headitude/Utilities/Utilities.swift:29-31 | bits of hex above bit 23 do not affect the colour |
| Utilities.WhiteAndBlack | Headitude/Utilities/Utilities.swift:26-33 | 0xFFFFFF gives (1, 1, 1) and 0 gives (0, 0, 0), with opacity `alpha` |
| Calibrations.Corrected | Headitude/Calibration.swift:58-62 | `calibration.conjugated * (idle * q) * calibration`, shared by `apply` and `correctQuaternion` (HeadphoneMotionDetector.swift:29-32); CorrectedIdentity, CorrectedGrouping, CorrectedAfterReset and CorrectedNorm state what it does |
| Calibrations.Axes | Headitude/Calibration.swift:75-77 | the three normalised axes, or none where a magnitude is zero; AxesDefined and AxesOrthonormal state when they exist and that they are orthonormal |
| Calibrations.FrameQuaternion | Headitude/Calibration.swift:79-82 | the quaternion of an axis frame, or none where w = 0; FrameQuaternionParts and AlignedFrameQuaternion state its components |
| Calibrations.LookAndNod | Headitude/Calibration.swift:73-84 | the calibration `finish` computes: the frame quaternion of the axes; NoNodNoCalibration states that it needs a nod |
| Calibrations.CorrectedIdentity | Headitude/Calibration.swift:58-62 | with the initial identity idle and calibration quaternions (lines 31-32), `apply(q)` is q |
| Calibrations.CorrectedGrouping | Headitude/Calibration.swift:58-62 | the chain `conj(c) * steering * c` means the same grouped either way |
| Calibrations.CorrectedAfterReset | Headitude/Calibration.swift:58-66 | after a reset on attitude r, `apply(r)` is the real quaternion abs(r)²abs(c)², the identity for unit r and c |
| Calibrations.CorrectedNorm | Headitude/Calibration.swift:58-62 | `apply` multiplies the squared norm by those of idle and calibration (twice for the calibration), so unit idle and calibration preserve it |
| Calibrations.AxesDefined | Headitude/Calibration.swift:75-77 | the three normalisations succeed exactly when the idle gravity is non-zero and the nod gravity is not parallel to it |
| Calibrations.DownZero | Headitude/Calibration.swift:75 | the first normalisation divides by zero exactly when the idle gravity is zero |
| Calibrations.NodZero | Headitude/Calibration.swift:76 | the second normalisation divides by zero exactly when the nod gravity is parallel to the idle gravity |
| Calibrations.SideUnit | Headitude/Calibration.swift:75-77 | z and x are orthogonal, so z × x has unit length and the third normalisation never divides by zero |
| Calibrations.AxesOrthonormal | Headitude/Calibration.swift:75-77 | x, y, z are orthonormal with y = z × x; z points against the idle gravity, and x is orthogonal to the nod gravity |
| Calibrations.NoNodNoCalibration | Headitude/Calibration.swift:73-84 | if the gravity is a multiple of the idle gravity (no nod), no calibration can be computed |
| Calibrations.FrameQuaternionParts | Headitude/Calibration.swift:79-82 | the quaternion exists exactly when 1 + x.x + y.y + z.z is non-zero; then w > 0, 4w² is that radicand, and each vector component times 4w is the matching difference of frame entries |
| Calibrations.AlignedFrameQuaternion | Headitude/Calibration.swift:79-82 | the device axes themselves give the identity calibration |
| Calibrations.Storage | Headitude/Calibration.swift:53 | the eight doubles of `CalibrationStorageType`; StoreRestore states that StoredCalibration and StoredIdle read them back |
| Calibrations.StoredCalibration | Headitude/Calibration.swift:48 | the calibration quaternion of a decoded record; by StoreRestore it inverts Storage |
| Calibrations.StoredIdle | Headitude/Calibration.swift:49 | the idle quaternion of a decoded record; by StoreRestore it inverts Storage |
| Calibrations.DecodeEmpty | Headitude/Calibration.swift:25 | the zero-length default of the store never decodes, so a first launch keeps the identity defaults |
| Calibrations.Encode | Headitude/Calibration.swift:52-54 | the encoded object carries exactly the eight keys of `CalibrationStorageType` |
| Calibrations.Decode | Headitude/Calibration.swift:47 | decoding succeeds exactly on an object that carries all eight keys |
| Calibrations.DecodeEncode | Headitude/Calibration.swift:46-56 | decoding an encoded record gives the record back |
| Calibrations.EncodeDecode | Headitude/Calibration.swift:46-56 | a decoded record re-encodes to the same values under the same keys |
| Calibrations.StoreRestore | Headitude/Calibration.swift:46-56 | storing then restoring gives back both quaternions, field for field |
| Calibrations.Calibration.constructor | Headitude/Calibration.swift:25-36 | identity defaults and zero idle gravity; the persisted store, when it decodes, overrides both quaternions |
| Calibrations.Calibration.Update | Headitude/Calibration.swift:42-44 | replaces only `data` |
| Calibrations.Calibration.RestoreCalibration | Headitude/Calibration.swift:46-50 | on a decodable store sets both quaternions from it; otherwise changes nothing |
| Calibrations.Calibration.StoreCalibration | Headitude/Calibration.swift:52-56 | writes the encoding of both quaternions, and only the store; what it writes decodes back to them |
| Calibrations.Calibration.Apply | Headitude/Calibration.swift:58-62 | returns `conj(calibration) * (idle * to) * calibration` and changes nothing |
| Calibrations.Calibration.ResetOrientation | Headitude/Calibration.swift:64-66 | the idle quaternion becomes the conjugate of the sample attitude; nothing else changes, so a repeat is idempotent |
| Calibrations.Calibration.Start | Headitude/Calibration.swift:68-71 | copies the gravity into the idle gravity and resets orientation; the calibration is untouched |
| Calibrations.Calibration.Finish | Headitude/Calibration.swift:73-84 | sets only the calibration, to the look-and-nod quaternion, then stores it; idle quaternion and idle gravity are unchanged |
| Calibrations.FirstLaunch | Headitude/Calibration.swift:30-71 | with nothing persisted `apply` passes attitudes through, and after `start` on a unit attitude r, `apply(r)` is the identity |
| MotionDetectors.HeadphoneMotionDetector.constructor | Headitude/HeadphoneMotionDetector.swift:16-67 | `init(updateInterval:)` (lines 62-67) with the field defaults of lines 16-27: zero attitude and corrected attitude, disconnected, zero idle gravity, identity idle and calibration quaternions |
| MotionDetectors.HeadphoneMotionDetector.CorrectQuaternion | Headitude/HeadphoneMotionDetector.swift:29-32 | sets only the corrected attitude, to `conj(calibration) * (idleConjugated * quaternion) * calibration` |
| MotionDetectors.HeadphoneMotionDetector.ResetOrientation | Headitude/HeadphoneMotionDetector.swift:34-36 | the idle conjugate becomes the conjugate of the current `quaternion`; idempotent |
| MotionDetectors.HeadphoneMotionDetector.StartCalibration | Headitude/HeadphoneMotionDetector.swift:38-41 | copies the current gravity into the idle gravity, then resets orientation |
| MotionDetectors.HeadphoneMotionDetector.FinishCalibration | Headitude/HeadphoneMotionDetector.swift:43-53 | sets only the calibration, to the same look-and-nod quaternion as `Calibration.finish`, and persists nothing |
| MotionDetectors.HeadphoneMotionDetector.UpdateMotionData | Headitude/HeadphoneMotionDetector.swift:100-107 | with a sample: takes it, sets the attitude and recomputes the corrected attitude, and `onUpdate` runs; without one nothing changes |
| MotionDetectors.HeadphoneMotionDetector.DidConnect | Headitude/HeadphoneMotionDetector.swift:118-122 | `connected` becomes true whatever it was, and the callback receives true |
| MotionDetectors.HeadphoneMotionDetector.DidDisconnect | Headitude/HeadphoneMotionDetector.swift:124-128 | `connected` becomes false whatever it was, and the callback receives false |
| MotionDetectors.FirstSamples | Headitude/HeadphoneMotionDetector.swift:26-36 | a fresh detector passes the first sample through uncorrected; after a reset on a unit attitude the same sample gives the identity |
| Osc.Join | Headitude/OSCSender.swift:26 | the inverse of the split: JoinSplit and SplitJoin state the two round trips |
| Osc.Split | Headitude/OSCSender.swift:26 | `components(separatedBy: " ")` yields one more piece than there are spaces |
| Osc.SplitPieces | Headitude/OSCSender.swift:26 | no piece contains a space |
| Osc.JoinSplit | Headitude/OSCSender.swift:26 | joining the pieces with spaces gives the pattern back |
| Osc.SplitJoin | Headitude/OSCSender.swift:26 | splitting space-free pieces joined with spaces gives the pieces back |
| Osc.SplitPiece | Headitude/OSCSender.swift:26 | a string without spaces is a single piece |
| Osc.SplitAppend | Headitude/OSCSender.swift:26 | a space splits the pattern into the pieces of either side |
| Osc.NonEmpty | Headitude/OSCSender.swift:27 | the filter keeps only non-empty pieces drawn from its input, and no more of them |
| Osc.NonEmptyAppend | Headitude/OSCSender.swift:27 | filtering distributes over concatenation |
| Osc.NonEmptyKeeps | Headitude/OSCSender.swift:27 | filtering non-empty pieces changes nothing |
| Osc.Parts | Headitude/OSCSender.swift:26-27 | every part is non-empty and free of spaces |
| Osc.RepeatedSpaces | Headitude/OSCSender.swift:26-27 | two spaces separate parts exactly as one does, so repeated spaces never create tokens |
| Osc.PartsEmpty | Headitude/OSCSender.swift:26-29 | there is an address at line 29 exactly when the pattern is not made of spaces alone |
| Osc.PartsJoin | Headitude/OSCSender.swift:26-27 | non-empty space-free parts joined by spaces are parsed back unchanged |
| Osc.ParseToken | Headitude/OSCSender.swift:38-64 | strips one leading `-`, then matches the switch; ParseFormat, FormatParse and DoubleDash state exactly which parts it accepts |
| Osc.ParseName | Headitude/OSCSender.swift:45-64 | the six cases of the switch; ParseNameFormat states them, and the default case is the `None` result |
| Osc.FormatToken | Headitude/OSCSender.swift:45-64 | the spelling of a token; by ParseFormat and FormatParse it is inverse to ParseToken |
| Osc.Evaluate | Headitude/OSCSender.swift:36-66 | one loop iteration: the signed, possibly wrapped value of a recognised part, or none for the default case; Interpret states the loop over it |
| Osc.ParseFormat | Headitude/OSCSender.swift:38-64 | every token spelling is recognised as that token |
| Osc.FormatParse | Headitude/OSCSender.swift:38-64 | every recognised part is the spelling of its token, so exactly 12 spellings are accepted |
| Osc.ParseNameFormat | Headitude/OSCSender.swift:45-60 | each of the six names of the switch maps to its angle and wrap flag |
| Osc.DoubleDash | Headitude/OSCSender.swift:38-41 | only one leading `-` is stripped: `--yaw` is invalid, `-yaw` is negated yaw |
| Osc.Wrap360 | Headitude/OSCSender.swift:48-60 | a negative angle gets 360 added, a non-negative one is unchanged, and any angle of at least -360 becomes non-negative |
| Osc.TokenValue | Headitude/OSCSender.swift:45-66 | the value is the named angle, wrapped for `+`, then negated for `-`; a wrapped angle from [-180, 180] lies in [0, 360) before the sign is applied |
| Osc.Interpret | Headitude/OSCSender.swift:33-67 | a value list exists exactly when every token is recognised, and then holds one value per token, in order |
| Osc.ExampleValues | Headitude/OSCSender.swift:33-67 | `yaw -pitch roll+` with angles (10, 20, -5) gives [10, -20, 355]; an unknown token gives nothing |
| Osc.DefaultValues | Headitude/OSCSender.swift:17 | the tokens of the default pattern send yaw, pitch and roll unchanged |
| Osc.DefaultPattern | Headitude/OSCSender.swift:17 | the default pattern has address "/SceneRotator/ypr" and sends yaw, pitch and roll unchanged |
| Osc.PatternValues | Headitude/OSCSender.swift:26-67 | the pattern "/test/ypr yaw -pitch roll+" with angles (10, 20, -5) has address "/test/ypr" and sends [10, -20, 355] |
| Osc.OscSender.constructor | Headitude/OSCSender.swift:15-20 | the defaults: zero quaternion, pattern "/SceneRotator/ypr yaw pitch roll", host "localhost", port 3001, valid |
| Osc.OscSender.SetQuaternion | Headitude/OSCSender.swift:22-77 | stores the Ambisonic remap of q; `protocolValid` holds and a datagram is sent exactly when every token is recognised; the datagram carries the address and one value per token, in order |

## Left out

- Floating point: components, angles and channels are exact reals. IEEE rounding, NaN and infinities are not modelled, nor are the `Float(...)` conversions in `setQuaternion`.
- Transcendental functions:
  - `sqrt` is a parameter constrained by `IsSqrt`.
  - `acos`, `asin`, `atan2` and `.pi` are not modelled.
  - `toTaitBryan` is reduced to the argument of its `asin` (the clamp).
  - `angle`, `axis` and the radian-to-degree scaling inside `setQuaternion` are not modelled; its angles arrive in degrees as the `angles` parameter.
- `conjugated`, used by both calibration files, is not defined in the source files of this model. It is modelled as the conjugate `Quaternions.Inverse`.
- Calibrations.Calibration.Finish: requires that the look-and-nod calibration exists, because the source divides by zero unguarded in three cases: the idle gravity is zero (line 75), the nod gravity is parallel to the idle gravity (line 76), or w = 0 (line 80). The Swift code would produce NaN or infinite components there. The same holds for `MotionDetectors.HeadphoneMotionDetector.FinishCalibration`.
- Calibrations.FrameQuaternionParts: w > 0 is proved only when the radicand 1 + x.x + y.y + z.z is non-negative. Non-negativity follows from the trace of a rotation matrix being at least -1, which is not proved here. Nothing is proved about the calibration being a unit quaternion.
- Accelerations.Normalized: requires a non-zero magnitude instead of modelling the division by zero.
- The JSON text, `JSONEncoder`/`JSONDecoder` and `@AppStorage`:
  - The store is a map from keys to reals.
  - Encoding never fails for reals, so the early return at line 54 of `Calibration.swift` cannot happen in the model.
- Calibrations.Calibration.constructor: the persisted store and the default `CMDeviceMotion()` are parameters, because their contents come from outside the class.
- `deinit` of `Calibration`, which calls `storeCalibration`: Dafny has no deinitialisers.
- `HeadphoneMotionDetector`:
  - `timer`, `CMHeadphoneMotionManager`, `start`, `stop`, `isAuthorized` and the `print` calls are not modelled; a reading of `deviceMotion` is an `Option<Sample>` argument.
  - Its `idleQuaternion` field is kept, but the source never reads or writes it after initialisation.
- Osc.OscSender.SetQuaternion: requires the pattern to have at least one part, because `protocolPartsFiltered[0]` at line 29 of `OSCSender.swift` traps on a pattern of spaces alone; `Osc.PartsEmpty` characterises that case.
- The OSC network send (`client.send`, OSCKit) and its error path: `SetQuaternion` returns the datagram instead.
- `ip` and `port` are only read. The views that edit them, and `OSCSenderView`, `InfoButton` and `NumberFormatter.integer`, are SwiftUI.
- `HeadScene.swift`, `ContentView.swift`, `ConnectionCalibrationView.swift`, `RotationViewer.swift` and `HeaditudeApp.swift`: rendering and app wiring.
- `Color.random`: it is nondeterministic.
- The default argument `alpha: Double = 1.0` of `Color.init(hex:alpha:)`: Dafny has no default arguments, so `ColorFromHex` always takes `alpha`.
- Strings are sequences of Unicode scalars. `components(separatedBy:)`, `starts(with:)` and `dropFirst()` in `setQuaternion` work on Swift `Character`s (grapheme clusters), so a `-` or a space combined with a following combining mark is split differently in the model.
- `@AppStorage("calibration")` is one UserDefaults entry shared by every `Calibration` instance. The model gives each object its own `calibrationStore`, so one instance storing does not change what another would restore.
- The colour space argument `.sRGB` of `Color.init(hex:alpha:)`: it is a constant tag.

## Findings

| source | as written | input that shows it | evidently intended | confidence | as-written member | corrected member |
|---|---|---|---|---|---|---|
| Headitude/QuaternionExtension.swift:60 | `asin(2 * min(max(w*y - z*x, -1), 1))`: the clamp is applied before doubling, so the argument lies in [-2, 2]. For a quaternion of norm at most 1 the clamp never acts (PitchClampInactive). | q = (0, 0.7071067811865476, 0, 0.7071067811865476), the nearest double to a pitch of exactly 90 degrees: 2·w·y exceeds 1 (1.0000000000000002 in double arithmetic), so `asin` returns NaN | `asin(min(max(2*(w*y - z*x), -1), 1))`: the clamp exists to keep the argument of `asin` in its domain [-1, 1], which only clamping after doubling achieves | medium, not executed | Quaternions.PitchSineAsWritten, Quaternions.PitchSineOutOfDomain | Quaternions.PitchSine |
