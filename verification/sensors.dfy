/** Raw sensor words, per-axis calibration and the integration time step of
    the Razor AHRS firmware, for the configuration the sketch compiles:
    hardware SEN-10736 (HMC5883L magnetometer), simple min/max
    magnetometer calibration, the default calibration constants. */
module Sensors {
  import opened Bytes
  import opened VectorMath

  // ---------------------------------------------------------------------
  // Raw words

  /** The width of C `int` on the target: 16 bits on an 8-bit AVR, 32 bits
      on an ARM board. The readers build each raw value in an `int`, so
      its value depends on this width. */
  datatype IntWidth = Int16 | Int32

  predicate InRange(w: IntWidth, x: int)
  {
    match w
    case Int16 => -0x8000 <= x < 0x8000
    case Int32 => -0x8000_0000 <= x < 0x8000_0000
  }

  /** `(((int)hi) << 8) | lo`: on a 16-bit `int` a high byte of 0x80 or more
      lands in the sign bit and the word reads as two's complement; on a
      32-bit `int` the word is never negative. */
  function Word(w: IntWidth, hi: Byte, lo: Byte): (x: int)
    ensures InRange(w, x)
    ensures w == Int16 ==> x % 0x1_0000 == hi * 256 + lo
    ensures w == Int32 ==> x == hi * 256 + lo
  {
    if w == Int16 && hi >= 0x80 then hi * 256 + lo - 0x1_0000 else hi * 256 + lo
  }

  /** `-1 * x` evaluated in an `int` of width `w`: the product wraps, so on a
      16-bit `int` the negation of -32768 is -32768 itself. */
  function Negated(w: IntWidth, x: int): (r: int)
    requires InRange(w, x)
    ensures InRange(w, r)
  {
    if w == Int16 && x == -0x8000 then -0x8000
    else if w == Int32 && x == -0x8000_0000 then -0x8000_0000
    else -x
  }

  /** The accelerometer sample of `Read_Accel` from the six bytes received
      (little-endian words, axes swapped; no sign change). */
  function AccelSample(w: IntWidth, b: seq<Byte>): Vec3
    requires |b| == 6
  {
    Vec3(Word(w, b[3], b[2]) as real, Word(w, b[1], b[0]) as real, Word(w, b[5], b[4]) as real)
  }

  /** The magnetometer sample of `Read_Magn` for SEN-10736 (big-endian
      words, Y and Z reversed, every axis negated). */
  function MagnSample(w: IntWidth, b: seq<Byte>): Vec3
    requires |b| == 6
  {
    Vec3(Negated(w, Word(w, b[4], b[5])) as real,
         Negated(w, Word(w, b[0], b[1])) as real,
         Negated(w, Word(w, b[2], b[3])) as real)
  }

  /** The gyroscope sample of `Read_Gyro` (big-endian words, X and Y
      swapped, every axis negated). */
  function GyroSample(w: IntWidth, b: seq<Byte>): Vec3
    requires |b| == 6
  {
    Vec3(Negated(w, Word(w, b[2], b[3])) as real,
         Negated(w, Word(w, b[0], b[1])) as real,
         Negated(w, Word(w, b[4], b[5])) as real)
  }

  // ---------------------------------------------------------------------
  // Properties of the raw words

  /** Two different byte pairs never give the same word: the word loses no
      information, whatever the width of `int`. */
  lemma WordInjective(w: IntWidth, hi: Byte, lo: Byte, hi': Byte, lo': Byte)
    requires Word(w, hi, lo) == Word(w, hi', lo')
    ensures hi == hi' && lo == lo'
  {
    assert hi * 256 + lo == hi' * 256 + lo';
  }

  /** On a 16-bit `int` the word is the two's complement reading of the
      bytes; on a 32-bit `int` it is their unsigned reading. */
  lemma WordSign(w: IntWidth, hi: Byte, lo: Byte)
    ensures w == Int16 ==> (Word(w, hi, lo) < 0 <==> hi >= 0x80)
    ensures w == Int32 ==> 0 <= Word(w, hi, lo) < 0x1_0000
  {
  }

  /** Negation in a fixed-width `int` is its own inverse, and it agrees with
      mathematical negation everywhere except at the most negative value. */
  lemma NegatedInvolution(w: IntWidth, x: int)
    requires InRange(w, x)
    ensures Negated(w, Negated(w, x)) == x
    ensures Negated(w, x) == -x <==> InRange(w, -x)
  {
  }

  /** On a 16-bit `int` the raw word 0x8000 negates to itself, so a full
      negative deflection of a negated axis reads as -32768 rather than
      +32768. */
  lemma NegatedWrapsAtMinimum()
    ensures Negated(Int16, Word(Int16, 0x80, 0x00)) == -0x8000
  {
  }

  lemma AccelSampleInjective(w: IntWidth, b: seq<Byte>, b': seq<Byte>)
    requires |b| == 6 && |b'| == 6
    requires AccelSample(w, b) == AccelSample(w, b')
    ensures b == b'
  {
    WordInjective(w, b[3], b[2], b'[3], b'[2]);
    WordInjective(w, b[1], b[0], b'[1], b'[0]);
    WordInjective(w, b[5], b[4], b'[5], b'[4]);
  }

  lemma MagnSampleInjective(w: IntWidth, b: seq<Byte>, b': seq<Byte>)
    requires |b| == 6 && |b'| == 6
    requires MagnSample(w, b) == MagnSample(w, b')
    ensures b == b'
  {
    NegatedInvolution(w, Word(w, b[4], b[5]));
    NegatedInvolution(w, Word(w, b'[4], b'[5]));
    NegatedInvolution(w, Word(w, b[0], b[1]));
    NegatedInvolution(w, Word(w, b'[0], b'[1]));
    NegatedInvolution(w, Word(w, b[2], b[3]));
    NegatedInvolution(w, Word(w, b'[2], b'[3]));
    WordInjective(w, b[4], b[5], b'[4], b'[5]);
    WordInjective(w, b[0], b[1], b'[0], b'[1]);
    WordInjective(w, b[2], b[3], b'[2], b'[3]);
  }

  lemma GyroSampleInjective(w: IntWidth, b: seq<Byte>, b': seq<Byte>)
    requires |b| == 6 && |b'| == 6
    requires GyroSample(w, b) == GyroSample(w, b')
    ensures b == b'
  {
    NegatedInvolution(w, Word(w, b[2], b[3]));
    NegatedInvolution(w, Word(w, b'[2], b'[3]));
    NegatedInvolution(w, Word(w, b[0], b[1]));
    NegatedInvolution(w, Word(w, b'[0], b'[1]));
    NegatedInvolution(w, Word(w, b[4], b[5]));
    NegatedInvolution(w, Word(w, b'[4], b'[5]));
    WordInjective(w, b[2], b[3], b'[2], b'[3]);
    WordInjective(w, b[0], b[1], b'[0], b'[1]);
    WordInjective(w, b[4], b[5], b'[4], b'[5]);
  }

  // ---------------------------------------------------------------------
  // Calibration

  /** "1G reference" of the filter and of the accelerometer calibration. */
  const GRAVITY: real := 256.0

  const ACCEL_X_MIN: real := -250.0
  const ACCEL_X_MAX: real := 250.0
  const ACCEL_Y_MIN: real := -250.0
  const ACCEL_Y_MAX: real := 250.0
  const ACCEL_Z_MIN: real := -250.0
  const ACCEL_Z_MAX: real := 250.0

  const MAGN_X_MIN: real := -600.0
  const MAGN_X_MAX: real := 600.0
  const MAGN_Y_MIN: real := -600.0
  const MAGN_Y_MAX: real := 600.0
  const MAGN_Z_MIN: real := -600.0
  const MAGN_Z_MAX: real := 600.0
  /** The value a calibrated magnetometer axis reads at its recorded maximum. */
  const MAGN_TARGET: real := 100.0

  const GYRO_AVERAGE_OFFSET_X: real := 0.0
  const GYRO_AVERAGE_OFFSET_Y: real := 0.0
  const GYRO_AVERAGE_OFFSET_Z: real := 0.0

  /** `(raw - OFFSET) * SCALE` with `OFFSET = (min + max) / 2` and
      `SCALE = target / (max - OFFSET)`. */
  function Calibrated(raw: real, min: real, max: real, target: real): real
    requires min != max
  {
    (raw - (min + max) / 2.0) * (target / (max - (min + max) / 2.0))
  }

  /** Calibration maps the recorded bounds onto -target and target, and
      their midpoint onto zero. */
  lemma CalibrationMapsBounds(min: real, max: real, target: real)
    requires min < max
    ensures Calibrated(max, min, max, target) == target
    ensures Calibrated(min, min, max, target) == -target
    ensures Calibrated((min + max) / 2.0, min, max, target) == 0.0
  {
    var half := max - (min + max) / 2.0;
    assert min - (min + max) / 2.0 == -half;
    assert half * (target / half) == target;
  }

  /** For a positive target, calibration is strictly increasing: it keeps
      the order of raw readings. */
  lemma CalibrationMonotone(min: real, max: real, target: real, raw: real, raw': real)
    requires min < max && 0.0 < target && raw < raw'
    ensures Calibrated(raw, min, max, target) < Calibrated(raw', min, max, target)
  {
    var mid := (min + max) / 2.0;
    var half := max - mid;
    assert half > 0.0;
    var s := target / half;
    assert s > 0.0 by { PositiveProduct(target, 1.0 / half); }
    var d := raw' - raw;
    assert d * s > 0.0 by { PositiveProduct(d, s); }
    var c, c' := Calibrated(raw, min, max, target), Calibrated(raw', min, max, target);
    assert c == (raw - mid) * s && c' == (raw' - mid) * s;
    assert c' == c + d * s;
  }

  lemma PositiveProduct(a: real, b: real)
    requires a > 0.0 && b > 0.0
    ensures a * b > 0.0
  {
  }

  function CompensateAccel(a: Vec3): Vec3
  {
    Vec3(Calibrated(a.x, ACCEL_X_MIN, ACCEL_X_MAX, GRAVITY),
         Calibrated(a.y, ACCEL_Y_MIN, ACCEL_Y_MAX, GRAVITY),
         Calibrated(a.z, ACCEL_Z_MIN, ACCEL_Z_MAX, GRAVITY))
  }

  function CompensateMagn(m: Vec3): Vec3
  {
    Vec3(Calibrated(m.x, MAGN_X_MIN, MAGN_X_MAX, MAGN_TARGET),
         Calibrated(m.y, MAGN_Y_MIN, MAGN_Y_MAX, MAGN_TARGET),
         Calibrated(m.z, MAGN_Z_MIN, MAGN_Z_MAX, MAGN_TARGET))
  }

  function CompensateGyro(g: Vec3): Vec3
  {
    Vec3(g.x - GYRO_AVERAGE_OFFSET_X, g.y - GYRO_AVERAGE_OFFSET_Y, g.z - GYRO_AVERAGE_OFFSET_Z)
  }

  /** With the symmetric default bounds every offset is zero, so the
      compensation is a pure scaling: 256/250 for the accelerometer, 1/6 for
      the magnetometer, and the gyroscope is left as read. */
  lemma DefaultCompensationScales(a: Vec3, m: Vec3, g: Vec3)
    ensures CompensateAccel(a) == Scale(a, 256.0 / 250.0)
    ensures CompensateMagn(m) == Scale(m, 1.0 / 6.0)
    ensures CompensateGyro(g) == g
  {
  }

  /** A calibrated accelerometer axis reads `GRAVITY` at its recorded
      maximum and `-GRAVITY` at its recorded minimum. */
  lemma AccelCalibratedToGravity()
    ensures CompensateAccel(Vec3(ACCEL_X_MAX, ACCEL_Y_MAX, ACCEL_Z_MAX)) == Vec3(GRAVITY, GRAVITY, GRAVITY)
    ensures CompensateAccel(Vec3(ACCEL_X_MIN, ACCEL_Y_MIN, ACCEL_Z_MIN)) == Vec3(-GRAVITY, -GRAVITY, -GRAVITY)
  {
    CalibrationMapsBounds(ACCEL_X_MIN, ACCEL_X_MAX, GRAVITY);
  }

  // ---------------------------------------------------------------------
  // Time step

  /** `unsigned long` as returned by `millis()`. */
  type ULong = x: int | 0 <= x < 0x1_0000_0000

  /** `G_Dt` in seconds from two millisecond timestamps: the elapsed time
      when the clock moved forward, and zero otherwise (including the cycle
      in which `millis()` wraps around). */
  function DeltaT(now: ULong, before: ULong): (dt: real)
    ensures 0.0 <= dt
    ensures dt == 0.0 <==> now <= before
    ensures now > before ==> dt * 1000.0 == (now - before) as real
  {
    if now > before then (now - before) as real / 1000.0 else 0.0
  }
}
