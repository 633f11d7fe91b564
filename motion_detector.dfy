/**
  The calibration state of Headitude/HeadphoneMotionDetector.swift, an older copy of the
  logic in `Calibration` that works on the last sensor sample and persists nothing.
  The sensor manager, its timer and the `print` calls are not modelled: a reading of
  `deviceMotion` is an `Option<Sample>` argument, and each callback is an out-parameter
  carrying what the callback would be handed.
 */
module MotionDetectors {
  import opened Wrappers
  import opened Quaternions
  import opened Accelerations
  import opened Calibrations

  class HeadphoneMotionDetector {
    var updateInterval: real
    var data: Sample
    var quaternion: Quaternion
    var correctedQuaternion: Quaternion
    var connected: bool
    var idleGravity: Acceleration
    /** Declared and initialised by the source, never read or written afterwards. */
    var idleQuaternion: Quaternion
    var idleQuaternionConjugated: Quaternion
    var calibration: Quaternion

    /** `init(updateInterval:)`; `initial` stands for the default `CMDeviceMotion()`. */
    constructor(updateInterval: real, initial: Sample)
      ensures this.updateInterval == updateInterval && data == initial
      ensures quaternion == Zero && correctedQuaternion == Zero && !connected
      ensures idleGravity == Origin
      ensures idleQuaternion == Identity && idleQuaternionConjugated == Identity && calibration == Identity
    {
      this.updateInterval := updateInterval;
      data := initial;
      quaternion := Zero;
      correctedQuaternion := Zero;
      connected := false;
      idleGravity := Origin;
      idleQuaternion := Identity;
      idleQuaternionConjugated := Identity;
      calibration := Identity;
    }

    method CorrectQuaternion()
      modifies this`correctedQuaternion
      ensures correctedQuaternion == Corrected(idleQuaternionConjugated, calibration, quaternion)
    {
      var steering := Mul(idleQuaternionConjugated, quaternion);
      correctedQuaternion := Mul(Mul(Inverse(calibration), steering), calibration);
    }

    /** Uses the stored `quaternion`, not `data`; a second call changes nothing. */
    method ResetOrientation()
      modifies this`idleQuaternionConjugated
      ensures idleQuaternionConjugated == Inverse(quaternion)
    {
      idleQuaternionConjugated := Inverse(quaternion);
    }

    method StartCalibration()
      modifies this`idleGravity, this`idleQuaternionConjugated
      ensures idleGravity == data.gravity
      ensures idleQuaternionConjugated == Inverse(quaternion)
    {
      idleGravity := Copy(data.gravity);
      ResetOrientation();
    }

    /** The same look-and-nod computation as `Calibration.finish`, without storing. */
    method FinishCalibration(sqrt: real -> real)
      requires LookAndNod(idleGravity, data.gravity, sqrt).Some?
      modifies this`calibration
      ensures calibration == LookAndNod(idleGravity, data.gravity, sqrt).value
    {
      var axes := Axes(idleGravity, data.gravity, sqrt).value;
      calibration := FrameQuaternion(axes, sqrt).value;
    }

    /**
      One timer tick: with a sample, take it, recompute the corrected attitude and report
      that `onUpdate` runs; without one, nothing changes and no callback runs.
     */
    method UpdateMotionData(sample: Option<Sample>) returns (updated: bool)
      modifies this`data, this`quaternion, this`correctedQuaternion
      ensures updated <==> sample.Some?
      ensures sample.None? ==>
        data == old(data) && quaternion == old(quaternion) && correctedQuaternion == old(correctedQuaternion)
      ensures sample.Some? ==>
        data == sample.value && quaternion == sample.value.attitude
        && correctedQuaternion == Corrected(idleQuaternionConjugated, calibration, sample.value.attitude)
    {
      updated := false;
      if sample.Some? {
        data := sample.value;
        quaternion := sample.value.attitude;
        CorrectQuaternion();
        updated := true;
      }
    }

    /** Returns the argument handed to `onConnectionStatusChanged`. */
    method DidConnect() returns (status: bool)
      modifies this`connected
      ensures connected && status == connected
    {
      connected := true;
      status := connected;
    }

    /** Returns the argument handed to `onConnectionStatusChanged`. */
    method DidDisconnect() returns (status: bool)
      modifies this`connected
      ensures !connected && status == connected
    {
      connected := false;
      status := connected;
    }
  }

  /**
    On a fresh detector, the first sample is passed through uncorrected; resetting on it
    and updating with it again gives the identity when the attitude is a unit quaternion.
   */
  method FirstSamples(interval: real, initial: Sample, sample: Sample) returns (first: Quaternion, second: Quaternion)
    ensures first == sample.attitude
    ensures Norm2(sample.attitude) == 1.0 ==> second == Identity
  {
    var detector := new HeadphoneMotionDetector(interval, initial);
    var _ := detector.UpdateMotionData(Some(sample));
    CorrectedIdentity(sample.attitude);
    first := detector.correctedQuaternion;
    detector.ResetOrientation();
    var _ := detector.UpdateMotionData(Some(sample));
    CorrectedAfterReset(sample.attitude, Identity);
    second := detector.correctedQuaternion;
  }
}
