/** The direction-cosine-matrix (DCM) filter of the firmware, as functions on
    values: the gyro integration of `Matrix_update`, the row
    re-orthogonalisation of `Normalize` and the PI drift correction of
    `Drift_correction`. The methods of `Imu.Imu` are proved to compute
    exactly these functions on their arrays. */
module Dcm {
  import opened VectorMath
  import opened Sensors

  const KP_ROLLPITCH: real := 0.02
  const KI_ROLLPITCH: real := 0.00002
  const KP_YAW: real := 1.2
  const KI_YAW: real := 0.00002

  /** `GYRO_SCALED_RAD(x)`: gyro units to radians per second, that is the
      gain 0.06957 deg/s per unit times pi/180. */
  const GYRO_RAD_PER_UNIT: real := 0.06957 * 0.01745329252

  // ---------------------------------------------------------------------
  // Gyro integration (Matrix_update)

  /** The corrected turn rate: the scaled gyro reading plus the integral
      and proportional drift corrections of the previous cycle. */
  function OmegaVector(gyro: Vec3, omegaI: Vec3, omegaP: Vec3): Vec3
  {
    Add(Add(Scale(gyro, GYRO_RAD_PER_UNIT), omegaI), omegaP)
  }

  /** `Update_Matrix`: the skew-symmetric matrix of the rotation `dt * w`. */
  function UpdateMatrix(w: Vec3, dt: real): Mat3
  {
    Mat3(Vec3(0.0, -dt * w.z, dt * w.y),
         Vec3(dt * w.z, 0.0, -dt * w.x),
         Vec3(-dt * w.y, dt * w.x, 0.0))
  }

  /** DCM := DCM + DCM * Update_Matrix. */
  function Integrated(m: Mat3, w: Vec3, dt: real): Mat3
  {
    MatAdd(m, MatMul(m, UpdateMatrix(w, dt)))
  }

  /** The update matrix has a zero diagonal and is skew-symmetric. */
  lemma UpdateMatrixSkew(w: Vec3, dt: real, i: nat, j: nat)
    requires i < 3 && j < 3
    ensures UpdateMatrix(w, dt).Row(i).Get(i) == 0.0
    ensures UpdateMatrix(w, dt).Row(i).Get(j) == -UpdateMatrix(w, dt).Row(j).Get(i)
  {
  }

  /** A row times the update matrix is the cross product of the row with
      the rotation `dt * w`. */
  lemma RowTimesUpdate(r: Vec3, w: Vec3, dt: real)
    ensures RowTimes(r, UpdateMatrix(w, dt)) == Cross(r, Scale(w, dt))
  {
    var u := UpdateMatrix(w, dt);
    assert Column(u, 0) == Vec3(0.0, dt * w.z, -dt * w.y);
    assert Column(u, 1) == Vec3(-dt * w.z, 0.0, dt * w.x);
    assert Column(u, 2) == Vec3(dt * w.y, -dt * w.x, 0.0);
    assert r.y * (dt * w.z) + r.z * (-dt * w.y) == r.y * (w.z * dt) - r.z * (w.y * dt);
    assert r.x * (-dt * w.z) + r.z * (dt * w.x) == r.z * (w.x * dt) - r.x * (w.z * dt);
    assert r.x * (dt * w.y) + r.y * (-dt * w.x) == r.x * (w.y * dt) - r.y * (w.x * dt);
  }

  /** Each row of the integrated matrix is the old row turned by the
      infinitesimal rotation: r + r x (dt * w). */
  lemma IntegratedRow(m: Mat3, w: Vec3, dt: real, i: nat)
    requires i < 3
    ensures Integrated(m, w, dt).Row(i) == Add(m.Row(i), Cross(m.Row(i), Scale(w, dt)))
  {
    RowTimesUpdate(m.Row(i), w, dt);
  }

  /** Integration over a zero time step leaves the matrix as it was. */
  lemma IntegratedZeroStep(m: Mat3, w: Vec3)
    ensures Integrated(m, w, 0.0) == m
  {
  }

  /** The first-order update never shortens a row: its squared length grows
      by exactly the squared length of the increment. This is why every
      cycle re-normalises. */
  lemma IntegratedRowGrows(m: Mat3, w: Vec3, dt: real, i: nat)
    requires i < 3
    ensures var r, r' := m.Row(i), Integrated(m, w, dt).Row(i);
      var inc := Cross(r, Scale(w, dt));
      Dot(r', r') == Dot(r, r) + Dot(inc, inc) && Dot(r', r') >= Dot(r, r)
  {
    var r := m.Row(i);
    var inc := Cross(r, Scale(w, dt));
    IntegratedRow(m, w, dt, i);
    CrossOrthogonal(r, Scale(w, dt));
    assert Dot(Add(r, inc), Add(r, inc)) == Dot(r, r) + 2.0 * Dot(inc, r) + Dot(inc, inc);
    assert Dot(inc, inc) >= 0.0 by { SquaresNonNegative(inc); }
  }

  lemma SquaresNonNegative(v: Vec3)
    ensures Dot(v, v) >= 0.0
  {
    assert v.x * v.x >= 0.0 && v.y * v.y >= 0.0 && v.z * v.z >= 0.0;
  }

  // ---------------------------------------------------------------------
  // Re-orthogonalisation (Normalize)

  /** Half of the orthogonality error of rows 0 and 1, negated (eq. 19). */
  function HalfError(m: Mat3): real
  {
    -Dot(m.r0, m.r1) * 0.5
  }

  /** Row 0 with half of the error moved onto row 1 (eq. 19). */
  function Corrected0(m: Mat3): Vec3
  {
    Add(Scale(m.r1, HalfError(m)), m.r0)
  }

  /** Row 1 with half of the error moved onto row 0 (eq. 19). */
  function Corrected1(m: Mat3): Vec3
  {
    Add(Scale(m.r0, HalfError(m)), m.r1)
  }

  /** The first-order length correction of eq. 21: 1/|t| to first order
      around |t| = 1. */
  function Renorm(t: Vec3): real
  {
    0.5 * (3.0 - Dot(t, t))
  }

  function Rescaled(t: Vec3): Vec3
  {
    Scale(t, Renorm(t))
  }

  /** `Normalize`: rows 0 and 1 corrected against each other, row 2 their
      cross product (eq. 20), every row rescaled. */
  function Normalized(m: Mat3): Mat3
  {
    Mat3(Rescaled(Corrected0(m)), Rescaled(Corrected1(m)), Rescaled(Cross(Corrected0(m), Corrected1(m))))
  }

  /** The result does not depend on the old row 2 at all. */
  lemma NormalizedIgnoresRow2(m: Mat3, n: Mat3)
    requires m.r0 == n.r0 && m.r1 == n.r1
    ensures Normalized(m) == Normalized(n)
  {
  }

  /** The new row 2 is exactly orthogonal to the new rows 0 and 1. */
  lemma NormalizedRow2Orthogonal(m: Mat3)
    ensures Dot(Normalized(m).r2, Normalized(m).r0) == 0.0
    ensures Dot(Normalized(m).r2, Normalized(m).r1) == 0.0
  {
    var t0, t1 := Corrected0(m), Corrected1(m);
    var c := Cross(t0, t1);
    CrossOrthogonal(t0, t1);
    ScaledDot(c, Renorm(c), t0, Renorm(t0));
    ScaledDot(c, Renorm(c), t1, Renorm(t1));
  }

  lemma ScaledDot(u: Vec3, a: real, v: Vec3, b: real)
    ensures Dot(Scale(u, a), Scale(v, b)) == a * b * Dot(u, v)
  {
  }

  /** With rows 0 and 1 of unit length and orthogonality error d = r0 . r1,
      the corrected rows are off by only d^3 / 4: one step cubes the
      error. */
  lemma CorrectionCubesError(m: Mat3)
    requires Dot(m.r0, m.r0) == 1.0 && Dot(m.r1, m.r1) == 1.0
    ensures Dot(Corrected0(m), Corrected1(m)) == Dot(m.r0, m.r1) * Dot(m.r0, m.r1) * Dot(m.r0, m.r1) / 4.0
  {
    var d, e := Dot(m.r0, m.r1), HalfError(m);
    DotExpand(m.r1, e, m.r0, m.r0, e, m.r1);
    assert Dot(Corrected0(m), Corrected1(m)) == e * e * d + e + e + d;
  }

  /** Bilinearity of the dot product, for the shape eq. 19 produces. */
  lemma DotExpand(a: Vec3, s: real, b: Vec3, c: Vec3, t: real, d: Vec3)
    ensures Dot(Add(Scale(a, s), b), Add(Scale(c, t), d))
         == s * t * Dot(a, c) + s * Dot(a, d) + t * Dot(b, c) + Dot(b, d)
  {
    assert (a.x * s + b.x) * (c.x * t + d.x) == s * t * (a.x * c.x) + s * (a.x * d.x) + t * (b.x * c.x) + b.x * d.x;
    assert (a.y * s + b.y) * (c.y * t + d.y) == s * t * (a.y * c.y) + s * (a.y * d.y) + t * (b.y * c.y) + b.y * d.y;
    assert (a.z * s + b.z) * (c.z * t + d.z) == s * t * (a.z * c.z) + s * (a.z * d.z) + t * (b.z * c.z) + b.z * d.z;
  }

  /** If |t|^2 = 1 + eps, the rescaled vector has |.|^2 = 1 - 3 eps^2 / 4 +
      eps^3 / 4: a first-order length error becomes a second-order one. */
  lemma RescaledLengthError(t: Vec3)
    ensures var eps := Dot(t, t) - 1.0;
      Dot(Rescaled(t), Rescaled(t)) == 1.0 - 3.0 * eps * eps / 4.0 + eps * eps * eps / 4.0
  {
    var k := Renorm(t);
    ScaledDot(t, k, t, k);
  }

  /** A rotation matrix (orthonormal rows with r2 = r0 x r1) is a fixed
      point of `Normalize`. */
  lemma NormalizedFixesRotations(m: Mat3)
    requires Dot(m.r0, m.r0) == 1.0 && Dot(m.r1, m.r1) == 1.0 && Dot(m.r0, m.r1) == 0.0
    requires m.r2 == Cross(m.r0, m.r1)
    ensures Normalized(m) == m
  {
    assert HalfError(m) == 0.0;
    assert Corrected0(m) == m.r0;
    assert Corrected1(m) == m.r1;
    CrossNormSquared(m.r0, m.r1);
    assert Renorm(m.r2) == 1.0;
  }

  /** When rows 0 and 1 are already orthogonal, eq. 19 leaves them alone
      and only the rescaling acts on them. */
  lemma NormalizedOrthogonalRows(m: Mat3)
    requires Dot(m.r0, m.r1) == 0.0
    ensures Normalized(m).r0 == Rescaled(m.r0)
    ensures Normalized(m).r1 == Rescaled(m.r1)
  {
    assert HalfError(m) == 0.0;
    assert Scale(m.r1, 0.0) == Zero && Scale(m.r0, 0.0) == Zero;
  }

  /** The rescaling leaves a vector in place exactly when it is zero or of
      unit length. So `Normalize` moves every matrix with a non-zero row
      of another length, whatever the time step was. */
  lemma RescaledFixedPoints(t: Vec3)
    ensures Rescaled(t) == t <==> t == Zero || Dot(t, t) == 1.0
  {
    var k := Renorm(t);
    if Rescaled(t) == t && t != Zero {
      assert Rescaled(t) == Vec3(t.x * k, t.y * k, t.z * k);
      assert t.x * k == t.x && t.y * k == t.y && t.z * k == t.z;
      if t.x != 0.0 {
        assert t.x * k == t.x * 1.0;
      } else if t.y != 0.0 {
        assert t.y * k == t.y * 1.0;
      } else {
        assert t.z * k == t.z * 1.0;
      }
      assert k == 1.0;
    }
  }

  // ---------------------------------------------------------------------
  // Drift correction

  /** `abs` of the Arduino core. */
  function Abs(x: real): real
  {
    if x > 0.0 then x else -x
  }

  /** `constrain(x, low, high)` of the Arduino core. */
  function Constrain(x: real, low: real, high: real): real
  {
    if x < low then low else if x > high then high else x
  }

  /** The accelerometer trust weight for an acceleration of magnitude
      `norm` (raw units, 1G = GRAVITY). */
  function AccelWeight(norm: real): real
  {
    Constrain(1.0 - 2.0 * Abs(1.0 - norm / GRAVITY), 0.0, 1.0)
  }

  /** The weight is a fraction, full exactly at 1G and zero exactly outside
      the band (0.5G, 1.5G). */
  lemma AccelWeightBand(norm: real)
    ensures 0.0 <= AccelWeight(norm) <= 1.0
    ensures AccelWeight(norm) == 1.0 <==> norm == GRAVITY
    ensures AccelWeight(norm) == 0.0 <==> norm <= 0.5 * GRAVITY || norm >= 1.5 * GRAVITY
  {
  }

  /** Roll/pitch error: gravity as measured against gravity as the DCM
      predicts it (row 2). */
  function RollPitchError(accel: Vec3, m: Mat3): Vec3
  {
    Cross(accel, m.r2)
  }

  /** The yaw (course) error from the compass heading, given as its cosine
      and sine. */
  function CourseError(m: Mat3, cosHeading: real, sinHeading: real): real
  {
    m.r0.x * sinHeading - m.r1.x * cosHeading
  }

  function YawError(m: Mat3, cosHeading: real, sinHeading: real): Vec3
  {
    Scale(m.r2, CourseError(m, cosHeading, sinHeading))
  }

  /** The proportional term of this cycle. */
  function OmegaP(accel: Vec3, norm: real, m: Mat3, cosHeading: real, sinHeading: real): Vec3
  {
    Add(Scale(RollPitchError(accel, m), KP_ROLLPITCH * AccelWeight(norm)),
        Scale(YawError(m, cosHeading, sinHeading), KP_YAW))
  }

  /** What the integral term gains in one cycle. */
  function OmegaIIncrement(accel: Vec3, norm: real, m: Mat3, cosHeading: real, sinHeading: real): Vec3
  {
    Add(Scale(RollPitchError(accel, m), KI_ROLLPITCH * AccelWeight(norm)),
        Scale(YawError(m, cosHeading, sinHeading), KI_YAW))
  }

  /** The integral term after one cycle, accumulated in the order of
      `Drift_correction`: roll/pitch share first, then yaw share. */
  function OmegaI(omegaI: Vec3, accel: Vec3, norm: real, m: Mat3, cosHeading: real, sinHeading: real): Vec3
  {
    Add(Add(omegaI, Scale(RollPitchError(accel, m), KI_ROLLPITCH * AccelWeight(norm))),
        Scale(YawError(m, cosHeading, sinHeading), KI_YAW))
  }

  /** Both PI terms, once the accelerometer weight `w` is known. */
  lemma DriftTermsWithWeight(omegaI: Vec3, accel: Vec3, norm: real, m: Mat3, cosHeading: real, sinHeading: real, w: real)
    requires w == AccelWeight(norm)
    ensures OmegaP(accel, norm, m, cosHeading, sinHeading)
         == Add(Scale(RollPitchError(accel, m), KP_ROLLPITCH * w), Scale(YawError(m, cosHeading, sinHeading), KP_YAW))
    ensures OmegaI(omegaI, accel, norm, m, cosHeading, sinHeading)
         == Add(Add(omegaI, Scale(RollPitchError(accel, m), KI_ROLLPITCH * w)), Scale(YawError(m, cosHeading, sinHeading), KI_YAW))
  {
  }

  /** The integral term changes by an increment that does not depend on
      its own value: there is no clamp and no leak. */
  lemma OmegaIAccumulates(omegaI: Vec3, accel: Vec3, norm: real, m: Mat3, cosHeading: real, sinHeading: real)
    ensures OmegaI(omegaI, accel, norm, m, cosHeading, sinHeading)
         == Add(omegaI, OmegaIIncrement(accel, norm, m, cosHeading, sinHeading))
  {
  }

  /** `n` cycles with the same inputs. */
  function IterateOmegaI(omegaI: Vec3, accel: Vec3, norm: real, m: Mat3, cosHeading: real, sinHeading: real, n: nat): Vec3
  {
    if n == 0 then omegaI
    else OmegaI(IterateOmegaI(omegaI, accel, norm, m, cosHeading, sinHeading, n - 1), accel, norm, m, cosHeading, sinHeading)
  }

  /** Wind-up: under a persistent error the integral term grows linearly
      without bound. */
  lemma {:induction false} OmegaIWindsUp(omegaI: Vec3, accel: Vec3, norm: real, m: Mat3, cosHeading: real, sinHeading: real, n: nat)
    ensures IterateOmegaI(omegaI, accel, norm, m, cosHeading, sinHeading, n)
         == Add(omegaI, Scale(OmegaIIncrement(accel, norm, m, cosHeading, sinHeading), n as real))
  {
    var inc := OmegaIIncrement(accel, norm, m, cosHeading, sinHeading);
    if n == 0 {
      assert Scale(inc, 0.0) == Zero;
    } else {
      var prev := IterateOmegaI(omegaI, accel, norm, m, cosHeading, sinHeading, n - 1);
      OmegaIWindsUp(omegaI, accel, norm, m, cosHeading, sinHeading, n - 1);
      OmegaIAccumulates(prev, accel, norm, m, cosHeading, sinHeading);
      AddScaleStep(omegaI, inc, (n - 1) as real);
    }
  }

  lemma AddScaleStep(o: Vec3, v: Vec3, k: real)
    ensures Add(Add(o, Scale(v, k)), v) == Add(o, Scale(v, k + 1.0))
  {
  }

  /** The roll/pitch error is orthogonal to both the measured gravity and
      the predicted one, and vanishes when they are parallel. */
  lemma RollPitchErrorGeometry(accel: Vec3, m: Mat3, k: real)
    ensures Dot(RollPitchError(accel, m), accel) == 0.0
    ensures Dot(RollPitchError(accel, m), m.r2) == 0.0
    ensures accel == Scale(m.r2, k) ==> RollPitchError(accel, m) == Zero
  {
    CrossOrthogonal(accel, m.r2);
  }

  /** With a zero accelerometer weight only the compass acts: the
      proportional term is the yaw term alone. */
  lemma ZeroWeightIgnoresAccel(accel: Vec3, norm: real, m: Mat3, cosHeading: real, sinHeading: real)
    requires norm <= 0.5 * GRAVITY || norm >= 1.5 * GRAVITY
    ensures OmegaP(accel, norm, m, cosHeading, sinHeading) == Scale(YawError(m, cosHeading, sinHeading), KP_YAW)
  {
    AccelWeightBand(norm);
  }

  /** The course error vanishes when the heading the DCM predicts, the
      direction of (r0.x, r1.x), is the compass heading. */
  lemma CourseErrorAtHeading(m: Mat3, cosHeading: real, sinHeading: real, k: real)
    requires m.r0.x == k * cosHeading && m.r1.x == k * sinHeading
    ensures CourseError(m, cosHeading, sinHeading) == 0.0
  {
  }

  // ---------------------------------------------------------------------
  // One filter cycle

  /** The filter state that survives from one cycle to the next. */
  datatype Filter = Filter(dcm: Mat3, omegaP: Vec3, omegaI: Vec3)

  /** One cycle of the angles mode: integrate the gyro rate corrected by the
      previous cycle's PI terms, re-normalise, then compute the new PI terms
      from the normalised matrix. `sqrt` stands for the C library square
      root of the accelerometer magnitude. */
  function FilterStep(f: Filter, gyro: Vec3, accel: Vec3, dt: real, sqrt: real -> real,
                      cosHeading: real, sinHeading: real): Filter
  {
    var m := Normalized(Integrated(f.dcm, OmegaVector(gyro, f.omegaI, f.omegaP), dt));
    var norm := sqrt(Dot(accel, accel));
    Filter(m, OmegaP(accel, norm, m, cosHeading, sinHeading), OmegaI(f.omegaI, accel, norm, m, cosHeading, sinHeading))
  }

  /** With a zero time step a rotation matrix comes out of the cycle
      unchanged; the PI terms are still recomputed. */
  lemma FilterStepZeroDtKeepsRotation(f: Filter, gyro: Vec3, accel: Vec3, sqrt: real -> real,
                                      cosHeading: real, sinHeading: real)
    requires Dot(f.dcm.r0, f.dcm.r0) == 1.0 && Dot(f.dcm.r1, f.dcm.r1) == 1.0 && Dot(f.dcm.r0, f.dcm.r1) == 0.0
    requires f.dcm.r2 == Cross(f.dcm.r0, f.dcm.r1)
    ensures FilterStep(f, gyro, accel, 0.0, sqrt, cosHeading, sinHeading).dcm == f.dcm
  {
    IntegratedZeroStep(f.dcm, OmegaVector(gyro, f.omegaI, f.omegaP));
    NormalizedFixesRotations(f.dcm);
  }
}
