/** The sensor-reading and filter state of the Razor AHRS firmware.

    The firmware keeps this state in global arrays and variables that its
    functions update in place; here they are the fields of one `Imu`
    object, and each firmware function is a method of it. Scratch arrays
    that a function writes before it reads them (`Gyro_Vector`, `Omega`,
    `Omega_Vector`, `Update_Matrix`, `Temporary_Matrix`, `errorRollPitch`,
    `errorYaw` and the two `static` arrays of `Drift_correction`) become
    fresh local arrays of the method that uses them.

    Hardware access is replaced by parameters: `millis()` by `now`, the
    bytes the I2C bus delivers by a sequence, the square root of the
    accelerometer magnitude by a function `sqrt`, and the compass heading
    (computed with trigonometry by `Compass_Heading`) by its cosine and
    sine. */
module Imu {
  import opened Bytes
  import opened VectorMath
  import opened Sensors
  import opened Dcm
  import opened DcmUpdate

  const OUTPUT_MODE_CALIBRATE_SENSORS: int := 0
  const OUTPUT_MODE_ANGLES: int := 1

  /** `while (Wire.available()) { buff[i] = WIRE_RECEIVE(); i++; }`: copies
      every byte the bus has into a six-byte buffer and counts them. The
      loop itself has no bound; six is what `Wire.requestFrom(address, 6)`
      makes available at most. */
  method Receive(available: seq<Byte>) returns (buff: array<Byte>, i: nat)
    requires |available| <= 6
    ensures fresh(buff) && buff.Length == 6
    ensures i == |available| && buff[..i] == available
  {
    buff := new Byte[6];
    i := 0;
    while i < |available|
      invariant i <= |available|
      invariant buff[..i] == available[..i]
    {
      buff[i] := available[i];
      i := i + 1;
    }
  }

  /** The sample a reader leaves behind: the new one when all six bytes
      arrived, the stale one otherwise. */
  function NextAccel(w: IntWidth, b: seq<Byte>, stale: Vec3): Vec3
  {
    if |b| == 6 then AccelSample(w, b) else stale
  }

  function NextMagn(w: IntWidth, b: seq<Byte>, stale: Vec3): Vec3
  {
    if |b| == 6 then MagnSample(w, b) else stale
  }

  function NextGyro(w: IntWidth, b: seq<Byte>, stale: Vec3): Vec3
  {
    if |b| == 6 then GyroSample(w, b) else stale
  }

  /** An error counter after one read. */
  function NextErrors(b: seq<Byte>, errors: int): int
  {
    if |b| == 6 then errors else errors + 1
  }

  class Imu {
    const width: IntWidth

    const accel: array<real>
    const accelMin: array<real>
    const accelMax: array<real>
    const magnetom: array<real>
    const magnetomMin: array<real>
    const magnetomMax: array<real>
    const gyro: array<real>
    const gyroAverage: array<real>
    const accelVector: array<real>
    const omegaP: array<real>
    const omegaI: array<real>
    /** `DCM_Matrix`, nine entries in row order. */
    const dcm: array<real>

    var gyroNumSamples: int
    var timestamp: ULong
    var timestampOld: ULong
    var gDt: real
    var outputMode: int
    var resetCalibrationSessionFlag: bool
    var numAccelErrors: int
    var numMagnErrors: int
    var numGyroErrors: int

    /** Every array has its C size and no two of them are the same. */
    predicate Valid()
    {
      && accel.Length == 3 && accelMin.Length == 3 && accelMax.Length == 3
      && magnetom.Length == 3 && magnetomMin.Length == 3 && magnetomMax.Length == 3
      && gyro.Length == 3 && gyroAverage.Length == 3 && accelVector.Length == 3
      && omegaP.Length == 3 && omegaI.Length == 3 && dcm.Length == 9
      && accel != accelMin && accel != accelMax && accel != magnetom && accel != magnetomMin
      && accel != magnetomMax && accel != gyro && accel != gyroAverage && accel != accelVector
      && accel != omegaP && accel != omegaI && accel != dcm
      && accelMin != accelMax && accelMin != magnetom && accelMin != magnetomMin
      && accelMin != magnetomMax && accelMin != gyro && accelMin != gyroAverage
      && accelMin != accelVector && accelMin != omegaP && accelMin != omegaI && accelMin != dcm
      && accelMax != magnetom && accelMax != magnetomMin && accelMax != magnetomMax
      && accelMax != gyro && accelMax != gyroAverage && accelMax != accelVector
      && accelMax != omegaP && accelMax != omegaI && accelMax != dcm
      && magnetom != magnetomMin && magnetom != magnetomMax && magnetom != gyro
      && magnetom != gyroAverage && magnetom != accelVector && magnetom != omegaP
      && magnetom != omegaI && magnetom != dcm
      && magnetomMin != magnetomMax && magnetomMin != gyro && magnetomMin != gyroAverage
      && magnetomMin != accelVector && magnetomMin != omegaP && magnetomMin != omegaI
      && magnetomMin != dcm
      && magnetomMax != gyro && magnetomMax != gyroAverage && magnetomMax != accelVector
      && magnetomMax != omegaP && magnetomMax != omegaI && magnetomMax != dcm
      && gyro != gyroAverage && gyro != accelVector && gyro != omegaP && gyro != omegaI
      && gyro != dcm
      && gyroAverage != accelVector && gyroAverage != omegaP && gyroAverage != omegaI
      && gyroAverage != dcm
      && accelVector != omegaP && accelVector != omegaI && accelVector != dcm
      && omegaP != omegaI && omegaP != dcm
      && omegaI != dcm
    }

    /** The filter state the angles mode carries between cycles. */
    function State(): Filter
      requires Valid()
      reads dcm, omegaP, omegaI
    {
      Filter(MatrixAt(dcm), At(omegaP, 0), At(omegaI, 0))
    }

    /** The state as the sketch's static initialisers leave it: zeroed
        arrays, the identity DCM, a pending calibration reset and the
        angles output mode. */
    constructor (width: IntWidth)
      ensures Valid() && this.width == width
      ensures accel[0] == 0.0 && accel[1] == 0.0 && accel[2] == 0.0
      ensures accelMin[0] == 0.0 && accelMin[1] == 0.0 && accelMin[2] == 0.0
      ensures accelMax[0] == 0.0 && accelMax[1] == 0.0 && accelMax[2] == 0.0
      ensures magnetom[0] == 0.0 && magnetom[1] == 0.0 && magnetom[2] == 0.0
      ensures magnetomMin[0] == 0.0 && magnetomMin[1] == 0.0 && magnetomMin[2] == 0.0
      ensures magnetomMax[0] == 0.0 && magnetomMax[1] == 0.0 && magnetomMax[2] == 0.0
      ensures gyro[0] == 0.0 && gyro[1] == 0.0 && gyro[2] == 0.0
      ensures gyroAverage[0] == 0.0 && gyroAverage[1] == 0.0 && gyroAverage[2] == 0.0
      ensures accelVector[0] == 0.0 && accelVector[1] == 0.0 && accelVector[2] == 0.0
      ensures omegaP[0] == 0.0 && omegaP[1] == 0.0 && omegaP[2] == 0.0
      ensures omegaI[0] == 0.0 && omegaI[1] == 0.0 && omegaI[2] == 0.0
      ensures forall k :: 0 <= k < 9 ==> dcm[k] == if k % 4 == 0 then 1.0 else 0.0
      ensures gyroNumSamples == 0 && timestamp == 0 && timestampOld == 0 && gDt == 0.0
      ensures outputMode == OUTPUT_MODE_ANGLES && resetCalibrationSessionFlag
      ensures numAccelErrors == 0 && numMagnErrors == 0 && numGyroErrors == 0
    {
      this.width := width;
      accel := new real[3](_ => 0.0);
      accelMin := new real[3](_ => 0.0);
      accelMax := new real[3](_ => 0.0);
      magnetom := new real[3](_ => 0.0);
      magnetomMin := new real[3](_ => 0.0);
      magnetomMax := new real[3](_ => 0.0);
      gyro := new real[3](_ => 0.0);
      gyroAverage := new real[3](_ => 0.0);
      accelVector := new real[3](_ => 0.0);
      omegaP := new real[3](_ => 0.0);
      omegaI := new real[3](_ => 0.0);
      dcm := new real[9](k => if k % 4 == 0 then 1.0 else 0.0);
      gyroNumSamples := 0;
      timestamp := 0;
      timestampOld := 0;
      gDt := 0.0;
      outputMode := OUTPUT_MODE_ANGLES;
      resetCalibrationSessionFlag := true;
      numAccelErrors := 0;
      numMagnErrors := 0;
      numGyroErrors := 0;
    }

    /** `Read_Accel`: `available` is what the bus delivers. */
    method ReadAccel(available: seq<Byte>)
      requires Valid() && |available| <= 6
      modifies this`numAccelErrors, accel
      ensures At(accel, 0) == NextAccel(width, available, old(At(accel, 0)))
      ensures numAccelErrors == NextErrors(available, old(numAccelErrors))
    {
      var buff, i := Receive(available);
      if i == 6 {
        accel[0] := Word(width, buff[3], buff[2]) as real;
        accel[1] := Word(width, buff[1], buff[0]) as real;
        accel[2] := Word(width, buff[5], buff[4]) as real;
      } else {
        numAccelErrors := numAccelErrors + 1;
      }
    }

    /** `Read_Magn` for SEN-10736. */
    method ReadMagn(available: seq<Byte>)
      requires Valid() && |available| <= 6
      modifies this`numMagnErrors, magnetom
      ensures At(magnetom, 0) == NextMagn(width, available, old(At(magnetom, 0)))
      ensures numMagnErrors == NextErrors(available, old(numMagnErrors))
    {
      var buff, i := Receive(available);
      if i == 6 {
        magnetom[0] := Negated(width, Word(width, buff[4], buff[5])) as real;
        magnetom[1] := Negated(width, Word(width, buff[0], buff[1])) as real;
        magnetom[2] := Negated(width, Word(width, buff[2], buff[3])) as real;
      } else {
        numMagnErrors := numMagnErrors + 1;
      }
    }

    /** `Read_Gyro` */
    method ReadGyro(available: seq<Byte>)
      requires Valid() && |available| <= 6
      modifies this`numGyroErrors, gyro
      ensures At(gyro, 0) == NextGyro(width, available, old(At(gyro, 0)))
      ensures numGyroErrors == NextErrors(available, old(numGyroErrors))
    {
      var buff, i := Receive(available);
      if i == 6 {
        gyro[0] := Negated(width, Word(width, buff[2], buff[3])) as real;
        gyro[1] := Negated(width, Word(width, buff[0], buff[1])) as real;
        gyro[2] := Negated(width, Word(width, buff[4], buff[5])) as real;
      } else {
        numGyroErrors := numGyroErrors + 1;
      }
    }

    /** `read_sensors`: gyroscope, accelerometer, magnetometer, in that
        order. */
    method ReadSensors(gyroBytes: seq<Byte>, accelBytes: seq<Byte>, magnBytes: seq<Byte>)
      requires Valid() && |gyroBytes| <= 6 && |accelBytes| <= 6 && |magnBytes| <= 6
      modifies this`numGyroErrors, this`numAccelErrors, this`numMagnErrors, gyro, accel, magnetom
      ensures At(gyro, 0) == NextGyro(width, gyroBytes, old(At(gyro, 0)))
      ensures At(accel, 0) == NextAccel(width, accelBytes, old(At(accel, 0)))
      ensures At(magnetom, 0) == NextMagn(width, magnBytes, old(At(magnetom, 0)))
      ensures numGyroErrors == NextErrors(gyroBytes, old(numGyroErrors))
      ensures numAccelErrors == NextErrors(accelBytes, old(numAccelErrors))
      ensures numMagnErrors == NextErrors(magnBytes, old(numMagnErrors))
    {
      ReadGyro(gyroBytes);
      ReadAccel(accelBytes);
      ReadMagn(magnBytes);
    }

    /** `check_reset_calibration_session`: when the flag is set, start a new
        min/max session at the current raw readings and restart the gyro
        average; otherwise do nothing. */
    method CheckResetCalibrationSession()
      requires Valid()
      modifies this`gyroNumSamples, this`resetCalibrationSessionFlag
      modifies accelMin, accelMax, magnetomMin, magnetomMax, gyroAverage
      ensures !old(resetCalibrationSessionFlag) ==>
        && unchanged(accelMin, accelMax, magnetomMin, magnetomMax, gyroAverage)
        && gyroNumSamples == old(gyroNumSamples) && !resetCalibrationSessionFlag
      ensures old(resetCalibrationSessionFlag) ==>
        && At(accelMin, 0) == At(accel, 0) && At(accelMax, 0) == At(accel, 0)
        && At(magnetomMin, 0) == At(magnetom, 0) && At(magnetomMax, 0) == At(magnetom, 0)
        && At(gyroAverage, 0) == Zero && gyroNumSamples == 0 && !resetCalibrationSessionFlag
    {
      if !resetCalibrationSessionFlag {
        return;
      }
      for i := 0 to 3
        invariant forall k :: 0 <= k < i ==> accelMin[k] == accel[k] && accelMax[k] == accel[k]
        invariant forall k :: 0 <= k < i ==> magnetomMin[k] == magnetom[k] && magnetomMax[k] == magnetom[k]
      {
        accelMax[i] := accel[i];
        accelMin[i] := accelMax[i];
        magnetomMax[i] := magnetom[i];
        magnetomMin[i] := magnetomMax[i];
      }
      gyroNumSamples := 0;
      gyroAverage[2] := 0.0;
      gyroAverage[1] := gyroAverage[2];
      gyroAverage[0] := gyroAverage[1];
      resetCalibrationSessionFlag := false;
    }

    /** `compensate_sensor_errors` with simple magnetometer calibration. */
    method CompensateSensorErrors()
      requires Valid()
      modifies accel, magnetom, gyro
      ensures At(accel, 0) == CompensateAccel(old(At(accel, 0)))
      ensures At(magnetom, 0) == CompensateMagn(old(At(magnetom, 0)))
      ensures At(gyro, 0) == CompensateGyro(old(At(gyro, 0)))
    {
      accel[0] := Calibrated(accel[0], ACCEL_X_MIN, ACCEL_X_MAX, GRAVITY);
      accel[1] := Calibrated(accel[1], ACCEL_Y_MIN, ACCEL_Y_MAX, GRAVITY);
      accel[2] := Calibrated(accel[2], ACCEL_Z_MIN, ACCEL_Z_MAX, GRAVITY);

      magnetom[0] := Calibrated(magnetom[0], MAGN_X_MIN, MAGN_X_MAX, MAGN_TARGET);
      magnetom[1] := Calibrated(magnetom[1], MAGN_Y_MIN, MAGN_Y_MAX, MAGN_TARGET);
      magnetom[2] := Calibrated(magnetom[2], MAGN_Z_MIN, MAGN_Z_MAX, MAGN_TARGET);

      gyro[0] := gyro[0] - GYRO_AVERAGE_OFFSET_X;
      gyro[1] := gyro[1] - GYRO_AVERAGE_OFFSET_Y;
      gyro[2] := gyro[2] - GYRO_AVERAGE_OFFSET_Z;
    }

    /** The angles branch of `readImu`: apply the sensor calibration, then
        run one cycle of the DCM filter (`Matrix_update`, `Normalize`,
        `Drift_correction`) on the calibrated readings, with the heading
        given by its cosine and sine. */
    method AnglesCycle(sqrt: real -> real, cosHeading: real, sinHeading: real)
      requires Valid()
      modifies accel, magnetom, gyro, accelVector, dcm, omegaP, omegaI
      ensures At(accel, 0) == CompensateAccel(old(At(accel, 0)))
      ensures At(magnetom, 0) == CompensateMagn(old(At(magnetom, 0)))
      ensures At(gyro, 0) == CompensateGyro(old(At(gyro, 0)))
      ensures At(accelVector, 0) == At(accel, 0)
      ensures State() == FilterStep(old(State()), At(gyro, 0), At(accel, 0), gDt, sqrt, cosHeading, sinHeading)
    {
      CompensateSensorErrors();
      ghost var f := State();
      MatrixUpdate(gyro, accel, omegaI, omegaP, accelVector, dcm, gDt);
      Normalize(dcm);
      DriftCorrection(accelVector, dcm, omegaP, omegaI, sqrt, cosHeading, sinHeading);
    }

    /** The first lines of `readImu`: remember the previous timestamp,
        take the new one from the clock and derive `G_Dt` from the two. */
    method UpdateTimestamps(now: ULong)
      modifies this`timestamp, this`timestampOld, this`gDt
      ensures timestampOld == old(timestamp) && timestamp == now && gDt == DeltaT(now, old(timestamp))
    {
      timestampOld := timestamp;
      timestamp := now;
      if timestamp > timestampOld {
        gDt := (timestamp - timestampOld) as real / 1000.0;
      } else {
        gDt := 0.0;
      }
    }

    /** `readImu`: take the time step from the clock, read the three
        sensors, then either restart a pending calibration session
        (calibration mode) or calibrate the readings and run one filter
        cycle (angles mode). */
    method ReadImu(now: ULong, gyroBytes: seq<Byte>, accelBytes: seq<Byte>, magnBytes: seq<Byte>,
                   sqrt: real -> real, cosHeading: real, sinHeading: real)
      requires Valid() && |gyroBytes| <= 6 && |accelBytes| <= 6 && |magnBytes| <= 6
      modifies this`timestamp, this`timestampOld, this`gDt, this`gyroNumSamples, this`resetCalibrationSessionFlag
      modifies this`numGyroErrors, this`numAccelErrors, this`numMagnErrors
      modifies accel, magnetom, gyro, accelMin, accelMax, magnetomMin, magnetomMax, gyroAverage
      modifies accelVector, dcm, omegaP, omegaI
      ensures timestampOld == old(timestamp) && timestamp == now && gDt == DeltaT(now, old(timestamp))
      ensures numGyroErrors == NextErrors(gyroBytes, old(numGyroErrors))
      ensures numAccelErrors == NextErrors(accelBytes, old(numAccelErrors))
      ensures numMagnErrors == NextErrors(magnBytes, old(numMagnErrors))
      ensures outputMode == OUTPUT_MODE_ANGLES ==>
        && At(gyro, 0) == CompensateGyro(NextGyro(width, gyroBytes, old(At(gyro, 0))))
        && At(accel, 0) == CompensateAccel(NextAccel(width, accelBytes, old(At(accel, 0))))
        && At(magnetom, 0) == CompensateMagn(NextMagn(width, magnBytes, old(At(magnetom, 0))))
        && At(accelVector, 0) == At(accel, 0)
        && State() == FilterStep(old(State()), At(gyro, 0), At(accel, 0), gDt, sqrt, cosHeading, sinHeading)
      ensures outputMode != OUTPUT_MODE_ANGLES ==>
        && At(gyro, 0) == NextGyro(width, gyroBytes, old(At(gyro, 0)))
        && At(accel, 0) == NextAccel(width, accelBytes, old(At(accel, 0)))
        && At(magnetom, 0) == NextMagn(width, magnBytes, old(At(magnetom, 0)))
        && unchanged(accelVector, dcm, omegaP, omegaI)
      ensures outputMode == OUTPUT_MODE_CALIBRATE_SENSORS && old(resetCalibrationSessionFlag) ==>
        && At(accelMin, 0) == At(accel, 0) && At(accelMax, 0) == At(accel, 0)
        && At(magnetomMin, 0) == At(magnetom, 0) && At(magnetomMax, 0) == At(magnetom, 0)
        && At(gyroAverage, 0) == Zero && gyroNumSamples == 0
      ensures outputMode != OUTPUT_MODE_CALIBRATE_SENSORS || !old(resetCalibrationSessionFlag) ==>
        && unchanged(accelMin, accelMax, magnetomMin, magnetomMax, gyroAverage)
        && gyroNumSamples == old(gyroNumSamples)
      ensures resetCalibrationSessionFlag == (old(resetCalibrationSessionFlag) && outputMode != OUTPUT_MODE_CALIBRATE_SENSORS)
    {
      UpdateTimestamps(now);
      ReadSensors(gyroBytes, accelBytes, magnBytes);

      if outputMode == OUTPUT_MODE_CALIBRATE_SENSORS {
        CheckResetCalibrationSession();
      } else if outputMode == OUTPUT_MODE_ANGLES {
        AnglesCycle(sqrt, cosHeading, sinHeading);
      }
    }

  }
}
