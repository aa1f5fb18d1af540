# Razor AHRS filter and UBX frame writer, modelled in Dafny

This project models two parts of a weather-station firmware.

**The UBX frame writer (`Ublox::send`).**
- It writes one u-blox UBX binary frame to the GPS receiver's serial port, in this order:
  - the sync characters 0xB5 0x62;
  - class, id, and a two-byte little-endian length;
  - the payload;
  - the 8-bit Fletcher checksum (RFC 1145) as CK_A, CK_B.
- `UbxFrame.Frame` is the pure definition of the frame.
- `UbxFrame.Ublox.Send` is the imperative method. It runs the `crcA`/`crcB` accumulators byte by byte, including a loop over the payload, and appends its writes to a `serial1` byte sequence.
- A receiver-side check, `UbxFrame.Parse`, is the partner of the frame. It accepts every frame `Send` writes (`ParseFrame`), and every frame it accepts with a short payload is exactly what `Send` writes (`FrameOfParse`).

**The direction-cosine-matrix (DCM) orientation filter of the Razor AHRS code (`imu.cpp`).** The filter state is a set of global arrays updated in place. Here they are the array fields of one `Imu.Imu` object. The model covers:
- the vector and matrix primitives (`VectorMath`), which work on (array, offset) pairs just as the C code passes `&DCM_Matrix[1][0]`;
- the gyro integration `Matrix_update`, the row re-orthogonalisation `Normalize` and the PI drift correction `Drift_correction` (`DcmUpdate`);
- the sensor readers with their short-read error counters, calibration and compensation, and the time step (`Sensors`, `Imu`);
- the per-cycle entry point `readImu`.

Every method is proved to compute a pure function on `Vec3`/`Mat3` values:
- `Dcm.Integrated`, `Dcm.Normalized`, `Dcm.OmegaP`, `Dcm.OmegaI` and `Dcm.FilterStep`;
- `Sensors.AccelSample`, `Sensors.Calibrated` and `Sensors.DeltaT`.

The properties of the filter are proved as lemmas about those functions.

The model takes the active build configuration:
- hardware SEN-10736 (HMC5883L magnetometer);
- simple min/max magnetometer calibration with the default bounds;
- drift correction on.

Hardware and library calls become parameters:
- `millis()` becomes `now`.
- The bytes the I2C bus delivers become a sequence per sensor.
- The C library `sqrt` of the accelerometer magnitude becomes a function parameter `sqrt: real -> real`.
- The compass heading is given by its cosine and sine, because `Compass_Heading` uses `atan2`.

`float` is modelled as `real`. The results are algebraic identities of the idealised arithmetic and say nothing about rounding.

Sensor bytes, timestamps and checksum bytes are integers and are modelled exactly:
- `Bytes.AddBytes` models `byte` arithmetic, which wraps.
- `Sensors.ULong` models the `unsigned long` timestamp.
- `Sensors.IntWidth` is the width of C `int` (16 or 32 bits). A raw word's sign depends on it, so it is a parameter of the model.

On a zero time step the code still runs `Normalize` and `Drift_correction`; only the integration step is then the identity. The model follows the code:
- `Dcm.FilterStepZeroDtKeepsRotation` shows that a rotation matrix still comes out unchanged.
- `Dcm.RescaledFixedPoints` shows which rows `Normalize` moves.

## Model

| member | source | states |
|---|---|---|
| UbxFrame.LengthHigh | ublox.cpp:7-21 | The high length byte `(len >> 8) & 0xFF` of a `byte` length is always 0, so a payload has at most 255 bytes |
| UbxFrame.Frame | ublox.cpp:29-37 | The frame has len + 8 bytes: 0xB5, 0x62, class, id, len, 0, the first len payload bytes, then the checksum computed over bytes 2 .. len+5 |
| UbxFrame.FletcherStep | ublox.cpp:23-27 | Feeding one more byte updates the checksum by crcA += x; crcB += crcA |
| UbxFrame.FletcherClosedForm | ublox.cpp:9-27 | After any byte string, crcA is the byte sum mod 256 and crcB is the sum of the running crcA values mod 256 |
| UbxFrame.FrameChecksumA | ublox.cpp:9-27 | CK_A of a frame is (cls + id + lenLo + lenHi + sum of the payload) mod 256 |
| UbxFrame.FrameChecksumB | ublox.cpp:12-27 | CK_B of a frame is the sum mod 256 of the value crcA held after each checksummed byte |
| UbxFrame.FrameChecksumCoverage | ublox.cpp:12-35 | The two trailing bytes are the Fletcher checksum of exactly frame bytes 2 .. len+5; the sync characters are outside it |
| UbxFrame.Parse | ublox.cpp:29-37 | A receiver's acceptance check: an accepted frame has the sync characters and a size matching its length field |
| UbxFrame.ParseFrame | ublox.cpp:9-37 | Every frame `send` writes is accepted and yields the class, the id and the first len payload bytes |
| UbxFrame.FrameOfParse | ublox.cpp:29-37 | Every accepted frame with a payload under 256 bytes is exactly the frame `send` writes for its message |
| UbxFrame.SingleByteErrorDetected | ublox.cpp:9-37 | Changing any one byte of a frame `send` wrote makes the receiver reject it |
| UbxFrame.Ublox.FrameChecksum | ublox.cpp:9-27 | The running accumulators after class, id, both length bytes and len payload bytes equal the Fletcher checksum of those bytes (loop invariant per payload byte) |
| UbxFrame.Ublox.Send | ublox.cpp:7-38 | Requires at least len payload bytes; the serial port's output afterwards is its old output followed by exactly `Frame(cls, id, len, payload)` |
| Bytes.AddBytesIsModular | ublox.cpp:12-26 | `byte += byte` is addition modulo 256 |
| VectorMath.CrossOrthogonal | imu.cpp:110-129 | The cross product is orthogonal to both operands |
| VectorMath.CrossNormSquared | imu.cpp:123-129 | Lagrange's identity for the cross product, used to show that `Normalize` fixes rotations |
| VectorMath.MatMulEntry | imu.cpp:149-160 | Entry (i, j) of a matrix product is row i of the left factor against column j of the right one |
| VectorMath.VectorDotProduct | imu.cpp:109-120 | The accumulating loop returns the dot product of the two vectors |
| VectorMath.VectorCrossProduct | imu.cpp:122-129 | Writes the cross product of the old operands, which must not overlap the output, and leaves every other vector of the output array unchanged |
| VectorMath.VectorScale | imu.cpp:131-138 | Writes the scaled vector, also in place, and leaves every other vector of the output array unchanged |
| VectorMath.VectorAdd | imu.cpp:140-147 | Writes the sum, also in place on either operand, and leaves every other vector of the output array unchanged |
| VectorMath.MatrixMultiply | imu.cpp:149-160 | With the output distinct from both factors, the output holds the matrix product |
| VectorMath.MatrixVectorMultiply | imu.cpp:162-170 | With the output distinct from the vector and the matrix, the output holds matrix times vector |
| Dcm.UpdateMatrixSkew | imu.cpp:293-301 | `Update_Matrix` has a zero diagonal and is skew-symmetric |
| Dcm.RowTimesUpdate | imu.cpp:293-304 | A row times `Update_Matrix` is the cross product of the row with `G_Dt * Omega_Vector` |
| Dcm.IntegratedRow | imu.cpp:304-312 | Each new DCM row is r + r x (G_Dt * Omega_Vector) |
| Dcm.IntegratedZeroStep | imu.cpp:293-312 | With `G_Dt == 0` the integration leaves the DCM unchanged |
| Dcm.IntegratedRowGrows | imu.cpp:304-312 | The first-order update lengthens every row by exactly the squared length of its increment, so rows never shrink |
| Dcm.NormalizedIgnoresRow2 | imu.cpp:200-224 | The normalised matrix depends only on the old rows 0 and 1 |
| Dcm.NormalizedRow2Orthogonal | imu.cpp:214-223 | The new row 2 is orthogonal to the new rows 0 and 1 |
| Dcm.CorrectionCubesError | imu.cpp:206-212 | For unit rows with orthogonality error d, the corrected rows have error d^3/4 (eq. 19) |
| Dcm.RescaledLengthError | imu.cpp:216-223 | The eq. 21 rescaling turns a squared length of 1 + eps into 1 - 3 eps^2/4 + eps^3/4 |
| Dcm.NormalizedFixesRotations | imu.cpp:200-224 | A matrix with orthonormal rows 0 and 1 and row 2 = row0 x row1 is left unchanged (error 0, every renorm 1) |
| Dcm.NormalizedOrthogonalRows | imu.cpp:206-220 | When rows 0 and 1 are orthogonal, only the rescaling acts on them |
| Dcm.RescaledFixedPoints | imu.cpp:216-223 | The rescaling leaves a row in place exactly when it is zero or of unit length |
| Dcm.AccelWeightBand | imu.cpp:242-246 | The accelerometer weight lies in [0, 1], is 1 exactly at 1G and 0 exactly at or outside 0.5G and 1.5G |
| Dcm.OmegaIAccumulates | imu.cpp:249-266 | `Omega_I` changes by an increment that does not depend on its own value: no clamp, no reset |
| Dcm.OmegaIWindsUp | imu.cpp:249-266 | After n cycles with the same inputs, `Omega_I` is its start value plus n times the increment |
| Dcm.RollPitchErrorGeometry | imu.cpp:248 | The roll/pitch error is orthogonal to measured and predicted gravity and vanishes when they are parallel |
| Dcm.ZeroWeightIgnoresAccel | imu.cpp:242-263 | Outside the 0.5G..1.5G band the proportional term is the yaw term alone |
| Dcm.CourseErrorAtHeading | imu.cpp:257-260 | The course error vanishes when the DCM's heading direction matches the compass heading |
| Dcm.FilterStepZeroDtKeepsRotation | imu.cpp:950-959 | A cycle with `G_Dt == 0` leaves a rotation matrix unchanged; the PI terms are still recomputed |
| DcmUpdate.FillUpdateMatrix | imu.cpp:293-301 | Fills the nine entries of `Update_Matrix` from `G_Dt * Omega_Vector` |
| DcmUpdate.AddInPlace | imu.cpp:306-312 | The nested loops add the temporary matrix into the DCM entry by entry |
| DcmUpdate.Rotate | imu.cpp:293-312 | The DCM becomes DCM + DCM * Update_Matrix |
| DcmUpdate.MatrixUpdate | imu.cpp:269-313 | `Accel_Vector` becomes `accel`, and the DCM is integrated with `Omega_Vector = Gyro_Vector + Omega_I + Omega_P`, all read before this cycle's drift correction |
| DcmUpdate.Normalize | imu.cpp:200-224 | The DCM becomes `Normalized` of the old DCM: eq. 19 error sharing, eq. 20 cross product, eq. 21 rescaling |
| DcmUpdate.AccelerometerWeight | imu.cpp:241-246 | The returned weight is `constrain(1 - 2 abs(1 - sqrt(a.a) / GRAVITY), 0, 1)` |
| DcmUpdate.RollPitchCorrection | imu.cpp:248-252 | `Omega_P` is overwritten with Kp_ROLLPITCH * w * (accel x row 2); `Omega_I` gains Ki_ROLLPITCH * w times the same error |
| DcmUpdate.YawCorrection | imu.cpp:257-266 | `Omega_P` gains Kp_YAW * errorYaw and `Omega_I` gains Ki_YAW * errorYaw, where errorYaw is row 2 times the course error |
| DcmUpdate.DriftCorrection | imu.cpp:227-267 | `Omega_P` becomes this cycle's proportional term and `Omega_I` its old value plus this cycle's increment, computed from the normalised DCM |
| Sensors.Word | imu.cpp:372-374 | The raw word `hi << 8` or `lo` fits the `int` width; on 16 bits it is hi*256+lo modulo 2^16, on 32 bits exactly hi*256+lo |
| Sensors.Negated | imu.cpp:420-428 | `-1 * x` in a fixed-width `int` stays in range (it wraps at the most negative value) |
| Sensors.WordInjective | imu.cpp:372-374 | Different byte pairs give different raw words, whatever the `int` width |
| Sensors.WordSign | imu.cpp:372-374 | On a 16-bit `int` the word is negative exactly when the high byte is 0x80 or more; on 32 bits it is never negative |
| Sensors.NegatedInvolution | imu.cpp:426-428 | Fixed-width negation is its own inverse and equals -x exactly when -x is in range |
| Sensors.NegatedWrapsAtMinimum | imu.cpp:502-504 | On a 16-bit `int` the word 0x8000 negates to -32768 |
| Sensors.AccelSampleInjective | imu.cpp:372-374 | Two six-byte reads giving the same accelerometer sample are the same bytes |
| Sensors.MagnSampleInjective | imu.cpp:426-428 | Two six-byte reads giving the same magnetometer sample are the same bytes |
| Sensors.GyroSampleInjective | imu.cpp:502-504 | Two six-byte reads giving the same gyroscope sample are the same bytes |
| Sensors.CalibrationMapsBounds | imu.cpp:10-22 | `(raw - OFFSET) * SCALE` maps the recorded maximum to the target, the minimum to minus the target, their midpoint to 0 |
| Sensors.CalibrationMonotone | imu.cpp:10-22 | For a positive target the calibration keeps the order of raw readings |
| Sensors.DefaultCompensationScales | imu.cpp:873-894 | With the default bounds the compensation scales the accelerometer by 256/250 and the magnetometer by 1/6, and leaves the gyroscope as read |
| Sensors.AccelCalibratedToGravity | imu.cpp:875-877 | A calibrated accelerometer axis reads +GRAVITY at its maximum and -GRAVITY at its minimum |
| Sensors.DeltaT | imu.cpp:937-941 | `G_Dt` is never negative; it is 0 exactly when the clock did not move forward, and otherwise the elapsed milliseconds / 1000 |
| Imu.Receive | imu.cpp:361-365 | The read loop copies every available byte into the buffer and counts them |
| Imu.Imu.constructor | imu.cpp:42-86 | Zeroed arrays, the identity DCM, zero counters, a pending calibration reset and the angles output mode |
| Imu.Imu.ReadAccel | imu.cpp:350-380 | A full read stores the new sample and leaves the counter; a short read keeps the stale sample and adds 1 to `num_accel_errors` |
| Imu.Imu.ReadMagn | imu.cpp:397-447 | The same rule for the magnetometer and `num_magn_errors` (SEN-10736 byte order, axes negated) |
| Imu.Imu.ReadGyro | imu.cpp:482-510 | The same rule for the gyroscope and `num_gyro_errors` (axes negated) |
| Imu.Imu.ReadSensors | imu.cpp:834-838 | Each sensor's sample and each error counter depends only on that sensor's read |
| Imu.Imu.CheckResetCalibrationSession | imu.cpp:897-915 | Without the flag nothing changes; with it min = max = the current reading per axis, the gyro average and sample count are zeroed, and the flag is cleared |
| Imu.Imu.CompensateSensorErrors | imu.cpp:873-894 | Each reading becomes its calibrated value (simple magnetometer mode) |
| Imu.Imu.AnglesCycle | imu.cpp:952-959 | Calibration, then one filter cycle: the filter state becomes `FilterStep` of the old state on the calibrated gyro and accelerometer readings |
| Imu.Imu.UpdateTimestamps | imu.cpp:937-941 | `timestamp_old` takes the old timestamp, `timestamp` the clock, and `G_Dt` is `DeltaT` of the two |
| Imu.Imu.ReadImu | imu.cpp:935-962 | Timing and error counters as above. Calibration mode restarts a pending session and leaves the filter alone. Angles mode calibrates and runs one filter cycle. Other modes only read |

## Left out

- I2C transactions and chip set-up (`I2C_Init`, `Accel_Init`, `Magn_Init`, `Gyro_Init`, the `Wire.*` calls, `delay`): hardware I/O. The delivered bytes are a parameter.
- `Compass_Heading`, `Euler_angles`, `reset_sensor_fusion`, `init_rotation_matrix` and `setupImu`: trigonometry (`atan2`, `asin`, `sin`, `cos`), which Dafny's reals do not have. `MAG_Heading`, `yaw`, `pitch` and `roll` are therefore not modelled; the heading enters `Drift_correction` as its cosine and sine.
- `sqrt` in `Drift_correction` is a function parameter, with no properties assumed.
- Floating-point rounding, convergence and stability of the filter: `float` is modelled as `real`.
- `imu_loop`, the serial command parser and the output formatting: the loop body is commented out, and it is I/O.
- The other hardware versions, the extended (ellipsoid) magnetometer calibration and the `DEBUG__NO_DRIFT_CORRECTION` branch: only the active build configuration is modelled.
- `Ublox::service` and `Ublox::begin`: serial input and baud-rate set-up.
- Imu.Receive: requires at most six available bytes. The C loop has no bound and would overrun `buff` if the bus ever delivered more than the six bytes requested.
- Imu.Imu.ReadImu: the error counters are unbounded integers; overflow of the C `int` counters is not modelled.
- The scratch globals `Gyro_Vector`, `Omega`, `Omega_Vector`, `Update_Matrix`, `Temporary_Matrix`, `errorRollPitch`, `errorYaw` and the `static` arrays of `Drift_correction` are local arrays of the methods that use them. Every method writes them before reading them, so nothing reads their values across cycles.
- `gyro_num_samples` and `gyro_average`: only the reset is modelled; the averaging that fills them is in the commented-out loop.
- `output_mode` is a field that no modelled operation changes; the code that switches it is in the commented-out parser.
