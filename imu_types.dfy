/** Value types shared by the sensor pipeline: the raw and physical triplets, the barometer
    reading and the snapshot a cycle produces (`Axis3i`, `Axis3f`, `baro_t`, `sensorData_t`). */
module ImuTypes {

  datatype Option<T> = None | Some(value: T) {
    /** The held value, or `default` when there is none. */
    function GetOr(default: T): T {
      match this
      case Some(v) => v
      case None => default
    }
  }

  /** A raw integer triplet: a sensor sample or a calibration accumulator (`Axis3i16`, `Axis3i64`). */
  datatype Axis3i = Axis3i(x: int, y: int, z: int)

  /** A triplet in physical units (`Axis3f`), over exact reals: float rounding is not modelled. */
  datatype Vec3 = Vec3(x: real, y: real, z: real)

  const Zero: Vec3 := Vec3(0.0, 0.0, 0.0)

  /** The accelerometer output. A calibration scale of zero makes the firmware divide by zero;
      the IEEE result (infinite or NaN) is represented by `NotFinite`. */
  datatype Accel = Finite(v: Vec3) | NotFinite

  /** Barometer output in millibar and degrees Celsius; the altitude field is not modelled. */
  datatype Baro = Baro(pressure: real, temperature: real)

  /** The per-cycle output record `sensors` (a zero-initialised static in the firmware). */
  datatype SensorData = SensorData(acc: Accel, gyro: Vec3, mag: Vec3, baro: Baro)

  const InitialSensorData: SensorData := SensorData(Finite(Zero), Zero, Zero, Baro(0.0, 0.0))
}
