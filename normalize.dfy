/** Conversion of raw readings to physical units, with the axis-sign correction for the rotated
    MPU6500 mounting (src/modules/src/sensors_task.c, processAccGyroMeasurements,
    processMagnetometerMeasurements, processBarometerMeasurements). Arithmetic is over exact
    reals; float rounding is not modelled. */
module Normalize {
  import opened ImuTypes
  import opened Frame

  type PosReal = r: real | r > 0.0 witness 1.0

  // The scale factors below are defined in the device driver headers, which are not part of this
  // model; the model only relies on each of them being positive. The magnetometer divisor is the
  // one constant defined next to the pipeline.

  /** Gyro: degrees per second per LSB at the configured +-2000 deg/s range. */
  const DEG_PER_LSB: PosReal
  /** Accelerometer: g per LSB at the configured +-8 g range. */
  const G_PER_LSB: PosReal
  /** Magnetometer: LSB per gauss (the raw heading is divided by it). */
  const MAG_GAUSS_PER_LSB: PosReal := 666.7
  /** Barometer: LSB per millibar of pressure, LSB per degree Celsius, and temperature offset. */
  const LPS25H_LSB_PER_MBAR: PosReal
  const LPS25H_LSB_PER_CELSIUS: PosReal
  const LPS25H_TEMP_OFFSET: real

  /** Gyro rate in deg/s: bias removed, X sign-inverted to undo the 90-degree mounting, Y and Z kept.
      Stated as its inverse: the raw reading is recovered from the output and the bias. */
  function GyroOut(raw: Axis3i, bias: Vec3): (r: Vec3)
    ensures raw.x as real == bias.x - r.x / DEG_PER_LSB
    ensures raw.y as real == bias.y + r.y / DEG_PER_LSB
    ensures raw.z as real == bias.z + r.z / DEG_PER_LSB
  {
    Vec3(-(raw.x as real - bias.x) * DEG_PER_LSB,
         (raw.y as real - bias.y) * DEG_PER_LSB,
         (raw.z as real - bias.z) * DEG_PER_LSB)
  }

  /** Acceleration in g: X sign-inverted, Y and Z kept, divided by the calibration scale. A zero
      scale is a division by zero in the firmware and yields no finite reading. */
  function AccOut(raw: Axis3i, scale: real): (r: Accel)
    ensures r.Finite? <==> scale != 0.0
    ensures r.Finite? ==> raw.x as real * G_PER_LSB == -(r.v.x * scale)
    ensures r.Finite? ==> raw.y as real * G_PER_LSB == r.v.y * scale
    ensures r.Finite? ==> raw.z as real * G_PER_LSB == r.v.z * scale
  {
    if scale == 0.0 then NotFinite
    else Finite(Vec3(-(raw.x as real) * G_PER_LSB / scale,
                     raw.y as real * G_PER_LSB / scale,
                     raw.z as real * G_PER_LSB / scale))
  }

  /** Magnetic field in gauss; no calibration and no axis correction. */
  function MagOut(raw: Axis3i): (r: Vec3)
    ensures r.x * MAG_GAUSS_PER_LSB == raw.x as real
    ensures r.y * MAG_GAUSS_PER_LSB == raw.y as real
    ensures r.z * MAG_GAUSS_PER_LSB == raw.z as real
  {
    Vec3(raw.x as real / MAG_GAUSS_PER_LSB, raw.y as real / MAG_GAUSS_PER_LSB, raw.z as real / MAG_GAUSS_PER_LSB)
  }

  /** Pressure in millibar and temperature in degrees Celsius from the kept raw values. */
  function BaroOut(raw: BaroRaw): (r: Baro)
    ensures r.pressure * LPS25H_LSB_PER_MBAR == raw.pressure as real
    ensures (r.temperature - LPS25H_TEMP_OFFSET) * LPS25H_LSB_PER_CELSIUS == raw.temperature as real
  {
    Baro(raw.pressure as real / LPS25H_LSB_PER_MBAR,
         LPS25H_TEMP_OFFSET + raw.temperature as real / LPS25H_LSB_PER_CELSIUS)
  }

  /** Squared magnitude, in g^2, of an uncalibrated accelerometer reading. */
  function MagnitudeSquared(acc: Axis3i): (m: real)
    ensures m >= 0.0
  {
    var x, y, z := acc.x as real * G_PER_LSB, acc.y as real * G_PER_LSB, acc.z as real * G_PER_LSB;
    x * x + y * y + z * z
  }

  /** `norm` is the magnitude, in g, of the uncalibrated reading: the value the firmware takes
      the square root for. */
  predicate IsAccNorm(acc: Axis3i, norm: real) {
    norm >= 0.0 && norm * norm == MagnitudeSquared(acc)
  }

  /** Before calibration (bias 0, scale 1) the outputs are the raw readings times the LSB factors,
      with only X sign-inverted. */
  lemma UncalibratedOutput(raw: ImuRaw)
    ensures GyroOut(raw.gyro, Zero) ==
            Vec3(-(raw.gyro.x as real) * DEG_PER_LSB, raw.gyro.y as real * DEG_PER_LSB, raw.gyro.z as real * DEG_PER_LSB)
    ensures AccOut(raw.acc, 1.0) ==
            Finite(Vec3(-(raw.acc.x as real) * G_PER_LSB, raw.acc.y as real * G_PER_LSB, raw.acc.z as real * G_PER_LSB))
  {
  }

  /** A frame whose accelerometer words are Y=100, X=200, Z=300 and gyro words Y=10, X=20, Z=30
      reads, before calibration, as accel (-200, 100, 300) and gyro (-20, 10, 30) LSB. */
  lemma RotatedMountingExample(temperatureHi: byte, temperatureLo: byte)
    ensures var seg := [0, 100, 0, 200, 1, 44, temperatureHi, temperatureLo, 0, 10, 0, 20, 0, 30];
            var raw := DecodeAccGyro(seg);
            GyroOut(raw.gyro, Zero) == Vec3(-20.0 * DEG_PER_LSB, 10.0 * DEG_PER_LSB, 30.0 * DEG_PER_LSB) &&
            AccOut(raw.acc, 1.0) == Finite(Vec3(-200.0 * G_PER_LSB, 100.0 * G_PER_LSB, 300.0 * G_PER_LSB))
  {
    var seg: seq<byte> := [0, 100, 0, 200, 1, 44, temperatureHi, temperatureLo, 0, 10, 0, 20, 0, 30];
    assert DecodeAccGyro(seg) == ImuRaw(Axis3i(200, 100, 300), Axis3i(20, 10, 30));
    UncalibratedOutput(DecodeAccGyro(seg));
  }

  /** With the bias equal to a stationary reading, that reading gives a zero rate. */
  lemma BiasCancelsRestingRate(g: Axis3i)
    ensures GyroOut(g, Vec3(g.x as real, g.y as real, g.z as real)) == Zero
  {
  }

  /** With the scale equal to a reading's own magnitude, that reading normalises to exactly 1 g. */
  lemma ScaleNormalisesToOneG(raw: Axis3i, scale: real)
    requires scale > 0.0 && IsAccNorm(raw, scale)
    ensures AccOut(raw, scale).Finite?
    ensures var v := AccOut(raw, scale).v; v.x * v.x + v.y * v.y + v.z * v.z == 1.0
  {
    var v := AccOut(raw, scale).v;
    var x, y, z := raw.x as real * G_PER_LSB, raw.y as real * G_PER_LSB, raw.z as real * G_PER_LSB;
    assert v.x * scale == -x && v.y * scale == y && v.z * scale == z;
    calc {
      (v.x * v.x + v.y * v.y + v.z * v.z) * (scale * scale);
      (v.x * scale) * (v.x * scale) + (v.y * scale) * (v.y * scale) + (v.z * scale) * (v.z * scale);
      x * x + y * y + z * z;
      scale * scale;
    }
  }
}
