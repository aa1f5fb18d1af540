/** The three DCM steps of the firmware as they run on its arrays:
    `Matrix_update`, `Normalize` and `Drift_correction`. Each takes the
    global arrays it touches as parameters and is proved to compute the
    matching function of `Dcm`. */
module DcmUpdate {
  import opened VectorMath
  import opened Sensors
  import opened Dcm

  /** The nine assignments to `Update_Matrix` in `Matrix_update`. */
  method FillUpdateMatrix(omegaVector: array<real>, dt: real) returns (updateMatrix: array<real>)
    requires omegaVector.Length == 3
    ensures fresh(updateMatrix) && updateMatrix.Length == 9
    ensures MatrixAt(updateMatrix) == UpdateMatrix(At(omegaVector, 0), dt)
  {
    updateMatrix := new real[9];
    updateMatrix[0] := 0.0;
    updateMatrix[1] := -dt * omegaVector[2];
    updateMatrix[2] := dt * omegaVector[1];
    updateMatrix[3] := dt * omegaVector[2];
    updateMatrix[4] := 0.0;
    updateMatrix[5] := -dt * omegaVector[0];
    updateMatrix[6] := -dt * omegaVector[1];
    updateMatrix[7] := dt * omegaVector[0];
    updateMatrix[8] := 0.0;
  }

  /** The loop `DCM_Matrix[x][y] += Temporary_Matrix[x][y]` of
      `Matrix_update`. */
  method AddInPlace(m: array<real>, t: array<real>)
    requires m.Length == 9 && t.Length == 9 && m != t
    modifies m
    ensures MatrixAt(m) == MatAdd(old(MatrixAt(m)), MatrixAt(t))
  {
    for x := 0 to 3
      invariant forall k :: 0 <= k < 3 * x ==> m[k] == old(m[k]) + t[k]
      invariant forall k :: 3 * x <= k < 9 ==> m[k] == old(m[k])
    {
      for y := 0 to 3
        invariant forall k :: 0 <= k < 3 * x + y ==> m[k] == old(m[k]) + t[k]
        invariant forall k :: 3 * x + y <= k < 9 ==> m[k] == old(m[k])
      {
        m[3 * x + y] := m[3 * x + y] + t[3 * x + y];
      }
    }
  }

  /** The second half of `Matrix_update`: build `Update_Matrix` from the
      corrected rate `Omega_Vector`, multiply it onto `DCM_Matrix` into
      `Temporary_Matrix`, and add that product to `DCM_Matrix`. */
  method Rotate(omegaVector: array<real>, dcm: array<real>, gDt: real)
    requires omegaVector.Length == 3 && dcm.Length == 9 && omegaVector != dcm
    modifies dcm
    ensures MatrixAt(dcm) == Integrated(old(MatrixAt(dcm)), At(omegaVector, 0), gDt)
  {
    var updateMatrix := FillUpdateMatrix(omegaVector, gDt);
    var temporaryMatrix := new real[9];
    MatrixMultiply(dcm, updateMatrix, temporaryMatrix);
    AddInPlace(dcm, temporaryMatrix);
  }

  /** `Matrix_update` with drift correction enabled: copy the accelerometer
      reading into `Accel_Vector`, then integrate the turn rate corrected
      by the current PI terms over `G_Dt`. */
  method MatrixUpdate(gyro: array<real>, accel: array<real>, omegaI: array<real>, omegaP: array<real>,
                      accelVector: array<real>, dcm: array<real>, gDt: real)
    requires gyro.Length == 3 && accel.Length == 3 && omegaI.Length == 3 && omegaP.Length == 3
    requires accelVector.Length == 3 && dcm.Length == 9
    requires accelVector != gyro && accelVector != accel && accelVector != omegaI && accelVector != omegaP
    requires accelVector != dcm
    requires dcm != gyro && dcm != accel && dcm != omegaI && dcm != omegaP
    modifies accelVector, dcm
    ensures At(accelVector, 0) == At(accel, 0)
    ensures MatrixAt(dcm) == Integrated(old(MatrixAt(dcm)), OmegaVector(At(gyro, 0), At(omegaI, 0), At(omegaP, 0)), gDt)
  {
    var gyroVector := new real[3];
    gyroVector[0] := gyro[0] * GYRO_RAD_PER_UNIT;
    gyroVector[1] := gyro[1] * GYRO_RAD_PER_UNIT;
    gyroVector[2] := gyro[2] * GYRO_RAD_PER_UNIT;
    assert At(gyroVector, 0) == Scale(At(gyro, 0), GYRO_RAD_PER_UNIT);

    accelVector[0] := accel[0];
    accelVector[1] := accel[1];
    accelVector[2] := accel[2];
    ghost var a := At(accelVector, 0);
    assert a == At(accel, 0);

    var omega := new real[3];
    VectorAdd(omega, 0, gyroVector, 0, omegaI, 0);
    var omegaVector := new real[3];
    VectorAdd(omegaVector, 0, omega, 0, omegaP, 0);
    assert At(omegaVector, 0) == OmegaVector(At(gyro, 0), At(omegaI, 0), At(omegaP, 0));

    Rotate(omegaVector, dcm, gDt);
  }

  /** `Normalize`: eq. 19 into a local `temporary`, eq. 20 for its row 2,
      eq. 21 back into `DCM_Matrix`. */
  method Normalize(dcm: array<real>)
    requires dcm.Length == 9
    modifies dcm
    ensures MatrixAt(dcm) == Normalized(old(MatrixAt(dcm)))
  {
    ghost var m := MatrixAt(dcm);
    var temporary := new real[9];
    var error := VectorDotProduct(dcm, 0, dcm, 3);
    error := -error * 0.5;
    assert error == HalfError(m);

    VectorScale(temporary, 0, dcm, 3, error);
    VectorScale(temporary, 3, dcm, 0, error);
    VectorAdd(temporary, 0, temporary, 0, dcm, 0);
    VectorAdd(temporary, 3, temporary, 3, dcm, 3);
    VectorCrossProduct(temporary, 6, temporary, 0, temporary, 3);
    ghost var t0, t1, t2 := At(temporary, 0), At(temporary, 3), At(temporary, 6);
    assert t0 == Corrected0(m) && t1 == Corrected1(m) && t2 == Cross(t0, t1);

    var renorm := VectorDotProduct(temporary, 0, temporary, 0);
    renorm := 0.5 * (3.0 - renorm);
    VectorScale(dcm, 0, temporary, 0, renorm);
    assert At(dcm, 0) == Rescaled(t0);

    renorm := VectorDotProduct(temporary, 3, temporary, 3);
    renorm := 0.5 * (3.0 - renorm);
    VectorScale(dcm, 3, temporary, 3, renorm);
    assert At(dcm, 3) == Rescaled(t1);

    renorm := VectorDotProduct(temporary, 6, temporary, 6);
    renorm := 0.5 * (3.0 - renorm);
    VectorScale(dcm, 6, temporary, 6, renorm);
    assert At(dcm, 6) == Rescaled(t2);
  }

  /** The first lines of `Drift_correction`: the magnitude of
      `Accel_Vector` in units of gravity, turned into the accelerometer's
      weight. */
  method AccelerometerWeight(accelVector: array<real>, sqrt: real -> real) returns (accelWeight: real)
    requires accelVector.Length == 3
    ensures var a := At(accelVector, 0); accelWeight == AccelWeight(sqrt(Dot(a, a)))
  {
    ghost var a := At(accelVector, 0);
    var squaredMagnitude := accelVector[0] * accelVector[0] + accelVector[1] * accelVector[1]
                            + accelVector[2] * accelVector[2];
    assert squaredMagnitude == Dot(a, a);
    var accelMagnitude := sqrt(squaredMagnitude);
    accelMagnitude := accelMagnitude / GRAVITY;
    accelWeight := Constrain(1.0 - 2.0 * Abs(1.0 - accelMagnitude), 0.0, 1.0);
  }

  /** The roll/pitch half of `Drift_correction`, once the accelerometer
      weight is known: overwrite `Omega_P` with the weighted proportional
      term and add the integral share to `Omega_I`. */
  method RollPitchCorrection(accelVector: array<real>, dcm: array<real>, omegaP: array<real>, omegaI: array<real>,
                             accelWeight: real)
    requires accelVector.Length == 3 && dcm.Length == 9 && omegaP.Length == 3 && omegaI.Length == 3
    requires omegaP != omegaI && omegaP != accelVector && omegaP != dcm
    requires omegaI != accelVector && omegaI != dcm
    modifies omegaP, omegaI
    ensures At(omegaP, 0) == Scale(RollPitchError(At(accelVector, 0), MatrixAt(dcm)), KP_ROLLPITCH * accelWeight)
    ensures At(omegaI, 0) == Add(old(At(omegaI, 0)), Scale(RollPitchError(At(accelVector, 0), MatrixAt(dcm)), KI_ROLLPITCH * accelWeight))
  {
    ghost var a, m := At(accelVector, 0), MatrixAt(dcm);
    var errorRollPitch := new real[3];
    VectorCrossProduct(errorRollPitch, 0, accelVector, 0, dcm, 6);
    ghost var e := At(errorRollPitch, 0);
    assert e == RollPitchError(a, m);
    VectorScale(omegaP, 0, errorRollPitch, 0, KP_ROLLPITCH * accelWeight);

    var scaledOmegaI := new real[3];
    VectorScale(scaledOmegaI, 0, errorRollPitch, 0, KI_ROLLPITCH * accelWeight);
    VectorAdd(omegaI, 0, omegaI, 0, scaledOmegaI, 0);
    assert MatrixAt(dcm) == m && At(accelVector, 0) == a;
  }

  /** The yaw half of `Drift_correction`: the course error against the
      compass heading, scaled onto the third row of the matrix, added to
      both `Omega_P` and `Omega_I` with their own gains. */
  method YawCorrection(dcm: array<real>, omegaP: array<real>, omegaI: array<real>, cosHeading: real, sinHeading: real)
    requires dcm.Length == 9 && omegaP.Length == 3 && omegaI.Length == 3
    requires omegaP != omegaI && omegaP != dcm && omegaI != dcm
    modifies omegaP, omegaI
    ensures At(omegaP, 0) == Add(old(At(omegaP, 0)), Scale(YawError(MatrixAt(dcm), cosHeading, sinHeading), KP_YAW))
    ensures At(omegaI, 0) == Add(old(At(omegaI, 0)), Scale(YawError(MatrixAt(dcm), cosHeading, sinHeading), KI_YAW))
  {
    var magHeadingX := cosHeading;
    var magHeadingY := sinHeading;
    var errorCourse := dcm[0] * magHeadingY - dcm[3] * magHeadingX;
    var errorYaw := new real[3];
    VectorScale(errorYaw, 0, dcm, 6, errorCourse);

    var scaledOmegaP := new real[3];
    VectorScale(scaledOmegaP, 0, errorYaw, 0, KP_YAW);
    VectorAdd(omegaP, 0, omegaP, 0, scaledOmegaP, 0);

    var scaledOmegaI := new real[3];
    VectorScale(scaledOmegaI, 0, errorYaw, 0, KI_YAW);
    VectorAdd(omegaI, 0, omegaI, 0, scaledOmegaI, 0);
  }

  /** `Drift_correction`: overwrite `Omega_P` with this cycle's
      proportional term and add this cycle's integral share to `Omega_I`.
      `sqrt` is the C library square root; the heading `MAG_Heading` is
      given by its cosine and sine. */
  method DriftCorrection(accelVector: array<real>, dcm: array<real>, omegaP: array<real>, omegaI: array<real>,
                         sqrt: real -> real, cosHeading: real, sinHeading: real)
    requires accelVector.Length == 3 && dcm.Length == 9 && omegaP.Length == 3 && omegaI.Length == 3
    requires omegaP != omegaI && omegaP != accelVector && omegaP != dcm
    requires omegaI != accelVector && omegaI != dcm
    modifies omegaP, omegaI
    ensures var a := At(accelVector, 0);
      At(omegaP, 0) == OmegaP(a, sqrt(Dot(a, a)), MatrixAt(dcm), cosHeading, sinHeading)
    ensures var a := At(accelVector, 0);
      At(omegaI, 0) == OmegaI(old(At(omegaI, 0)), a, sqrt(Dot(a, a)), MatrixAt(dcm), cosHeading, sinHeading)
  {
    ghost var a, m, oI := At(accelVector, 0), MatrixAt(dcm), At(omegaI, 0);
    var accelWeight := AccelerometerWeight(accelVector, sqrt);
    RollPitchCorrection(accelVector, dcm, omegaP, omegaI, accelWeight);
    assert At(omegaP, 0) == Scale(RollPitchError(a, m), KP_ROLLPITCH * accelWeight);
    assert At(omegaI, 0) == Add(oI, Scale(RollPitchError(a, m), KI_ROLLPITCH * accelWeight));
    YawCorrection(dcm, omegaP, omegaI, cosHeading, sinHeading);
    assert MatrixAt(dcm) == m && At(accelVector, 0) == a;
    DriftTermsWithWeight(oI, a, sqrt(Dot(a, a)), m, cosHeading, sinHeading, accelWeight);
  }
}
