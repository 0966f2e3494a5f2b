/** The sensor task of src/modules/src/sensors_task.c: the module statics as one object, the
    per-cycle read / decode / calibrate / publish, the single-slot output queues and their
    readers, the calibration query, the init guard and the startup self-test. */
module SensorsTask {
  import opened ImuTypes
  import opened Frame
  import opened Normalize
  import opened Calibration

  /** Number of MPU6500 self-test attempts (10 ms apart in the firmware, 3 s in all). */
  const MPU6500_SELF_TEST_ATTEMPTS: nat := 300

  predicate AnyPassed(outcomes: seq<bool>) {
    exists i :: 0 <= i < |outcomes| && outcomes[i]
  }

  /** The retry loop of sensorsTest: `outcomes[i]` is what the (i+1)-th call of the MPU6500
      self-test reports. The loop stops at the first success, after at most 300 calls. */
  method PrimarySelfTest(outcomes: seq<bool>) returns (passed: bool, calls: nat)
    requires |outcomes| == MPU6500_SELF_TEST_ATTEMPTS
    ensures 1 <= calls <= MPU6500_SELF_TEST_ATTEMPTS
    ensures passed <==> AnyPassed(outcomes)
    ensures passed ==> outcomes[calls - 1]
    ensures forall j :: 0 <= j < calls - 1 ==> !outcomes[j]
    ensures !passed ==> calls == MPU6500_SELF_TEST_ATTEMPTS
  {
    passed, calls := false, 0;
    var i := 0;
    while i < MPU6500_SELF_TEST_ATTEMPTS
      invariant 0 <= i <= MPU6500_SELF_TEST_ATTEMPTS && calls == i && !passed
      invariant forall j :: 0 <= j < i ==> !outcomes[j]
    {
      calls := calls + 1;
      if outcomes[i] {
        passed := true;
        break;
      }
      i := i + 1;
    }
  }

  /** The part of the statics one cycle's processing changes: the calibration statics, the
      converted readings and the raw barometer values kept across cycles. */
  datatype TaskState = TaskState(cal: CalState, sensors: SensorData, baroRaw: BaroRaw)

  /** processAccGyroMeasurements on the statics: one calibration step, then both readings are
      converted with the bias and scale as they are after that step. */
  function AccGyroUpdate(s: TaskState, seg: seq<byte>, accNorm: real): (r: TaskState)
    requires |seg| == MPU6500_BUFF_LEN
    ensures r.cal == Step(s.cal, DecodeAccGyro(seg).gyro, accNorm)
    ensures r.baroRaw == s.baroRaw && r.sensors.mag == s.sensors.mag && r.sensors.baro == s.sensors.baro
  {
    var raw := DecodeAccGyro(seg);
    var cal := Step(s.cal, raw.gyro, accNorm);
    TaskState(cal, s.sensors.(gyro := GyroOut(raw.gyro, cal.gyroBias), acc := AccOut(raw.acc, cal.accScale)),
              s.baroRaw)
  }

  /** processMagnetometerMeasurements on the statics: the heading changes only on new data. */
  function MagUpdate(s: TaskState, seg: seq<byte>): (r: TaskState)
    requires |seg| == MAG_BUFF_LEN
    ensures r.cal == s.cal && r.baroRaw == s.baroRaw && r.sensors == s.sensors.(mag := r.sensors.mag)
    ensures DecodeMag(seg).None? ==> r == s
  {
    match DecodeMag(seg)
    case None => s
    case Some(heading) => s.(sensors := s.sensors.(mag := MagOut(heading)))
  }

  /** processBarometerMeasurements on the statics: the sticky raw update, then the conversion. */
  function BaroUpdate(s: TaskState, seg: seq<byte>): (r: TaskState)
    requires |seg| == BARO_BUFF_LEN
    ensures r.cal == s.cal && r.sensors == s.sensors.(baro := r.sensors.baro)
    ensures r.baroRaw == UpdateBaroRaw(seg, s.baroRaw)
    ensures r.sensors.baro == BaroOut(r.baroRaw)
  {
    var raw := UpdateBaroRaw(seg, s.baroRaw);
    TaskState(s.cal, s.sensors.(baro := BaroOut(raw)), raw)
  }

  /** The processing of one frame read with the given sensors present: each present sensor's
      segment, at its offset, goes through its handler, in the order MPU6500, AK8963, LPS25H. */
  function ProcessSegments(s: TaskState, magPresent: bool, baroPresent: bool, frame: seq<byte>,
                           accNorm: real): (r: TaskState)
    requires |frame| == DataLen(magPresent, baroPresent)
    ensures r.cal == Step(s.cal, DecodeAccGyro(frame[..MPU6500_BUFF_LEN]).gyro, accNorm)
    ensures !magPresent ==> r.sensors.mag == s.sensors.mag
    ensures !baroPresent ==> r.baroRaw == s.baroRaw && r.sensors.baro == s.sensors.baro
  {
    var s1 := AccGyroUpdate(s, frame[..MPU6500_BUFF_LEN], accNorm);
    var s2 := if magPresent then MagUpdate(s1, frame[MPU6500_BUFF_LEN..MPU6500_BUFF_LEN + MAG_BUFF_LEN]) else s1;
    var off := BaroOffset(magPresent);
    if baroPresent then BaroUpdate(s2, frame[off..off + BARO_BUFF_LEN]) else s2
  }

  /** Processing what an MPU6500 with readings `raw` sends: one calibration step, then the gyro
      rate relative to the bias after that step and the acceleration divided by the scale after
      that step; nothing else changes. */
  lemma AccGyroUpdateOfSent(s: TaskState, raw: ImuRaw, temperature: int, accNorm: real)
    requires IsInt16Axis(raw.acc) && IsInt16Axis(raw.gyro) && IsInt16(temperature)
    ensures var c := Step(s.cal, raw.gyro, accNorm);
            AccGyroUpdate(s, EncodeAccGyro(raw, temperature), accNorm) ==
            TaskState(c, s.sensors.(gyro := GyroOut(raw.gyro, c.gyroBias), acc := AccOut(raw.acc, c.accScale)),
                      s.baroRaw)
  {
    DecodeEncodeAccGyro(raw, temperature);
  }

  /** Processing what an AK8963 sends: with data ready the heading output becomes the sent
      heading in gauss; without, nothing changes. */
  lemma MagUpdateOfSent(s: TaskState, status: byte, heading: Axis3i, st2: byte)
    requires IsInt16Axis(heading)
    ensures MagUpdate(s, EncodeMag(status, heading, st2)) ==
            if MagDataReady(status) then s.(sensors := s.sensors.(mag := MagOut(heading))) else s
  {
    DecodeEncodeMag(status, heading, st2);
  }

  /** Processing what an LPS25H sends: each raw value is the sent one when its status bit is set
      and the kept one otherwise, and the barometer output is converted from those. */
  lemma BaroUpdateOfSent(s: TaskState, status: byte, raw: BaroRaw)
    requires IsBaroRaw(raw)
    ensures var kept := BaroRaw(if Masked(status, LPS25H_P_DA) then raw.pressure else s.baroRaw.pressure,
                                if Masked(status, LPS25H_T_DA) then raw.temperature else s.baroRaw.temperature);
            BaroUpdate(s, EncodeBaro(status, raw)) == TaskState(s.cal, s.sensors.(baro := BaroOut(kept)), kept)
  {
    DecodeEncodeBaro(status, raw, s.baroRaw);
  }

  /** A present sensor's segment is processed from its offset in the frame: the gyro and
      accelerometer outputs are converted with the calibration after this frame's step, the
      heading is the magnetometer segment's when it flags new data (and kept otherwise), and the
      raw barometer values take the barometer segment's sticky update, converted into the output. */
  lemma ProcessSegmentsOfPresent(s: TaskState, magPresent: bool, baroPresent: bool, frame: seq<byte>,
                                 accNorm: real)
    requires |frame| == DataLen(magPresent, baroPresent)
    ensures var r := ProcessSegments(s, magPresent, baroPresent, frame, accNorm);
            var raw := DecodeAccGyro(frame[..MPU6500_BUFF_LEN]);
            r.sensors.gyro == GyroOut(raw.gyro, r.cal.gyroBias) && r.sensors.acc == AccOut(raw.acc, r.cal.accScale)
    ensures var r := ProcessSegments(s, magPresent, baroPresent, frame, accNorm);
            magPresent ==>
              r.sensors.mag == match DecodeMag(frame[MPU6500_BUFF_LEN..MPU6500_BUFF_LEN + MAG_BUFF_LEN])
                               case Some(heading) => MagOut(heading)
                               case None => s.sensors.mag
    ensures var r := ProcessSegments(s, magPresent, baroPresent, frame, accNorm);
            var off := BaroOffset(magPresent);
            baroPresent ==>
              r.baroRaw == UpdateBaroRaw(frame[off..off + BARO_BUFF_LEN], s.baroRaw) &&
              r.sensors.baro == BaroOut(r.baroRaw)
  {
  }

  /** The calibration step and the gyro and accelerometer outputs depend only on the MPU6500
      segment: which optional sensors are present, and what they deliver, makes no difference. */
  lemma ImuIndependentOfOptionalSensors(s: TaskState, accNorm: real,
                                        mag1: bool, baro1: bool, frame1: seq<byte>,
                                        mag2: bool, baro2: bool, frame2: seq<byte>)
    requires |frame1| == DataLen(mag1, baro1) && |frame2| == DataLen(mag2, baro2)
    requires frame1[..MPU6500_BUFF_LEN] == frame2[..MPU6500_BUFF_LEN]
    ensures var r1, r2 := ProcessSegments(s, mag1, baro1, frame1, accNorm), ProcessSegments(s, mag2, baro2, frame2, accNorm);
            r1.cal == r2.cal && r1.sensors.gyro == r2.sensors.gyro && r1.sensors.acc == r2.sensors.acc
  {
  }

  /** The sample that completes calibration is already converted with the bias and scale it
      completes: the 1024th gyro reading comes out relative to the mean of all 1024. */
  lemma CompletingSampleUsesNewBias(s: TaskState, magPresent: bool, baroPresent: bool, frame: seq<byte>,
                                    accNorm: real)
    requires |frame| == DataLen(magPresent, baroPresent)
    requires !s.cal.sensorBiasFound && s.cal.sensorBiasSampleCount == IMU_SENSOR_BIAS_SAMPLES - 1
    ensures var raw := DecodeAccGyro(frame[..MPU6500_BUFF_LEN]);
            var r := ProcessSegments(s, magPresent, baroPresent, frame, accNorm);
            r.cal.sensorBiasFound &&
            r.sensors.gyro == GyroOut(raw.gyro, Mean(Add(s.cal.gyroBiasSampleSum, raw.gyro))) &&
            r.sensors.acc == AccOut(raw.acc, (s.cal.accScaleSum + accNorm) / IMU_SENSOR_BIAS_SAMPLES as real)
  {
  }

  /** The raw gyro triplet of each frame read with the given sensors present, in order. */
  function GyroSamples(frames: seq<seq<byte>>, magPresent: bool, baroPresent: bool): (gs: seq<Axis3i>)
    requires forall i :: 0 <= i < |frames| ==> |frames[i]| == DataLen(magPresent, baroPresent)
    ensures |gs| == |frames|
  {
    seq(|frames|, i requires 0 <= i < |frames| =>
          assert |frames[i]| == DataLen(magPresent, baroPresent);
          DecodeAccGyro(frames[i][..MPU6500_BUFF_LEN]).gyro)
  }

  class SensorsState {
    var isInit: bool
    var isMagnetometerPresent: bool
    var isBarometerPresent: bool
    /** Never written after its initialiser; only exposed as a diagnostic. */
    var isMpu6500TestPassed: bool
    var isAK8963TestPassed: bool
    var isLPS25HTestPassed: bool

    /** The static receive buffer, large enough for all three segments. */
    const buffer: array<byte>

    /** The latest converted readings (`sensors`). */
    var sensors: SensorData

    // Calibration statics.
    var gyroBiasSampleSum: Axis3i
    var gyroBiasSampleSumSquares: Axis3i
    var accScaleSum: real
    var accScale: real
    var sensorBiasSampleCount: nat
    var sensorBiasFound: bool
    var gyroBias: Vec3
    var gyroBiasVariance: Vec3

    // The function statics of processBarometerMeasurements: last raw values, kept across cycles.
    var rawPressure: int
    var rawTemp: int

    // The four single-slot output queues; `None` is an empty queue.
    var accelerometerDataQueue: Option<Accel>
    var gyroDataQueue: Option<Vec3>
    var magnetometerDataQueue: Option<Vec3>
    var barometerDataQueue: Option<Baro>

    /** The calibration statics as one value. */
    function CalStatics(): CalState
      reads this`gyroBiasSampleSum, this`gyroBiasSampleSumSquares, this`accScaleSum, this`accScale
      reads this`sensorBiasSampleCount, this`sensorBiasFound, this`gyroBias, this`gyroBiasVariance
    {
      CalState(gyroBiasSampleSum, gyroBiasSampleSumSquares, accScaleSum, accScale,
               sensorBiasSampleCount, sensorBiasFound, gyroBias, gyroBiasVariance)
    }

    /** The statics one cycle's processing changes, as one value. */
    function State(): TaskState
      reads this`gyroBiasSampleSum, this`gyroBiasSampleSumSquares, this`accScaleSum, this`accScale
      reads this`sensorBiasSampleCount, this`sensorBiasFound, this`gyroBias, this`gyroBiasVariance
      reads this`sensors, this`rawPressure, this`rawTemp
    {
      TaskState(CalStatics(), sensors, BaroRaw(rawPressure, rawTemp))
    }

    /** The calibration statics satisfy the calibration invariant. */
    ghost predicate CalibrationValid()
      reads this`gyroBiasSampleSum, this`gyroBiasSampleSumSquares, this`accScaleSum, this`accScale
      reads this`sensorBiasSampleCount, this`sensorBiasFound, this`gyroBias, this`gyroBiasVariance
    {
      Consistent(CalStatics())
    }

    /** An absent sensor's queue is never written. */
    ghost predicate QueuesGated()
      reads this`isMagnetometerPresent, this`isBarometerPresent, this`magnetometerDataQueue, this`barometerDataQueue
    {
      (!isMagnetometerPresent ==> magnetometerDataQueue == None) &&
      (!isBarometerPresent ==> barometerDataQueue == None)
    }

    /** The rest of the object invariant. Kept apart from CalibrationValid, which only the
        methods that touch the calibration statics need to re-establish. */
    ghost predicate Valid()
      reads this`rawPressure, this`rawTemp, this`isMagnetometerPresent, this`isBarometerPresent
      reads this`magnetometerDataQueue, this`barometerDataQueue
    {
      buffer.Length == BUFFER_LEN &&
      IsBaroRaw(BaroRaw(rawPressure, rawTemp)) &&
      QueuesGated()
    }

    /** The state of the statics at power-up. */
    constructor ()
      ensures Valid() && CalibrationValid() && fresh(buffer)
      ensures !isInit && !isMagnetometerPresent && !isBarometerPresent
      ensures isMpu6500TestPassed && isAK8963TestPassed && isLPS25HTestPassed
      ensures CalStatics() == Initial
      ensures sensors == InitialSensorData && rawPressure == 0 && rawTemp == 0
      ensures accelerometerDataQueue == None && gyroDataQueue == None
      ensures magnetometerDataQueue == None && barometerDataQueue == None
      ensures forall i :: 0 <= i < buffer.Length ==> buffer[i] == 0
    {
      isInit, isMagnetometerPresent, isBarometerPresent := false, false, false;
      isMpu6500TestPassed, isAK8963TestPassed, isLPS25HTestPassed := true, true, true;
      buffer := new byte[BUFFER_LEN](_ => 0);
      sensors := InitialSensorData;
      gyroBiasSampleSum, gyroBiasSampleSumSquares := Axis3i(0, 0, 0), Axis3i(0, 0, 0);
      accScaleSum, accScale := 0.0, 1.0;
      sensorBiasSampleCount, sensorBiasFound := 0, false;
      gyroBias, gyroBiasVariance := Zero, Zero;
      rawPressure, rawTemp := 0, 0;
      accelerometerDataQueue, gyroDataQueue := None, None;
      magnetometerDataQueue, barometerDataQueue := None, None;
    }

    /** sensorsInit: does nothing when already initialised. Otherwise the presence flags take the
        outcome of each optional sensor's connection test, the queues are created empty, and the
        object is marked initialised. */
    method Init(magConnects: bool, baroConnects: bool)
      requires Valid()
      modifies this`isInit, this`isMagnetometerPresent, this`isBarometerPresent
      modifies this`accelerometerDataQueue, this`gyroDataQueue, this`magnetometerDataQueue, this`barometerDataQueue
      ensures Valid() && isInit
      ensures old(isInit) ==> unchanged(this)
      ensures !old(isInit) ==>
                isMagnetometerPresent == magConnects && isBarometerPresent == baroConnects &&
                accelerometerDataQueue == None && gyroDataQueue == None &&
                magnetometerDataQueue == None && barometerDataQueue == None
    {
      if isInit {
        return;
      }
      // sensorsDeviceInit: both flags start false and are set by a successful connection test.
      isMagnetometerPresent, isBarometerPresent := false, false;
      if magConnects {
        isMagnetometerPresent := true;
      }
      if baroConnects {
        isBarometerPresent := true;
      }
      // sensorsTaskInit: four empty queues of length one.
      accelerometerDataQueue, gyroDataQueue := None, None;
      magnetometerDataQueue, barometerDataQueue := None, None;
      isInit := true;
    }

    /** sensorsAreCalibrated: the bias is found exactly when 1024 samples have been counted; the
        bias and scale then in use are the means of those samples, and the power-up values before. */
    function AreCalibrated(): (calibrated: bool)
      reads this`gyroBiasSampleSum, this`gyroBiasSampleSumSquares, this`accScaleSum, this`accScale
      reads this`sensorBiasSampleCount, this`sensorBiasFound, this`gyroBias, this`gyroBiasVariance
      requires CalibrationValid()
      ensures calibrated <==> sensorBiasSampleCount == IMU_SENSOR_BIAS_SAMPLES
      ensures calibrated ==> gyroBias == Mean(gyroBiasSampleSum) && accScale * IMU_SENSOR_BIAS_SAMPLES as real == accScaleSum
      ensures !calibrated ==> gyroBias == Zero && accScale == 1.0
    {
      sensorBiasFound
    }

    /** One calibration step on the statics, as processAccGyroMeasurements does it: while the
        bias is not found, add the sample to the running sums and, on the 1024th sample, fix the
        bias, its spread and the accelerometer scale. Once found, nothing changes. */
    method Accumulate(gyro: Axis3i, accNorm: real)
      requires CalibrationValid() && IsInt16Axis(gyro)
      modifies this`gyroBiasSampleSum, this`gyroBiasSampleSumSquares, this`accScaleSum, this`accScale
      modifies this`sensorBiasSampleCount, this`sensorBiasFound, this`gyroBias, this`gyroBiasVariance
      ensures CalibrationValid()
      ensures CalStatics() == Step(old(CalStatics()), gyro, accNorm)
    {
      StepKeepsConsistent(CalStatics(), gyro, accNorm);
      if !sensorBiasFound {
        // Add the current sample to the running sums.
        gyroBiasSampleSum := Axis3i(gyroBiasSampleSum.x + gyro.x, gyroBiasSampleSum.y + gyro.y,
                                    gyroBiasSampleSum.z + gyro.z);
        gyroBiasSampleSumSquares := Axis3i(gyroBiasSampleSumSquares.x + gyro.x * gyro.x,
                                           gyroBiasSampleSumSquares.y + gyro.y * gyro.y,
                                           gyroBiasSampleSumSquares.z + gyro.z * gyro.z);
        accScaleSum := accScaleSum + accNorm;
        sensorBiasSampleCount := sensorBiasSampleCount + 1;

        if sensorBiasSampleCount == IMU_SENSOR_BIAS_SAMPLES {
          gyroBias := Mean(gyroBiasSampleSum);
          gyroBiasVariance := Spread(gyroBiasSampleSumSquares, gyroBias);
          accScale := accScaleSum / IMU_SENSOR_BIAS_SAMPLES as real;
          sensorBiasFound := true;
        }
      }
    }

    /** processAccGyroMeasurements: decode the MPU6500 segment, take one calibration step while
        the bias is not found, and convert both readings with the current bias and scale.
        `accNorm` is the square root the firmware computes of the uncalibrated squared magnitude. */
    method ProcessAccGyro(seg: seq<byte>, accNorm: real)
      requires Valid() && CalibrationValid()
      requires |seg| == MPU6500_BUFF_LEN
      requires IsAccNorm(DecodeAccGyro(seg).acc, accNorm)
      modifies this`gyroBiasSampleSum, this`gyroBiasSampleSumSquares, this`accScaleSum, this`accScale
      modifies this`sensorBiasSampleCount, this`sensorBiasFound, this`gyroBias, this`gyroBiasVariance
      modifies this`sensors
      ensures Valid() && CalibrationValid()
      ensures State() == AccGyroUpdate(old(State()), seg, accNorm)
    {
      var raw := DecodeAccGyro(seg);
      Accumulate(raw.gyro, accNorm);
      sensors := sensors.(gyro := GyroOut(raw.gyro, gyroBias), acc := AccOut(raw.acc, accScale));
    }

    /** processMagnetometerMeasurements: the heading is converted only when the segment flags
        new data; otherwise the previous heading is kept. */
    method ProcessMag(seg: seq<byte>)
      requires Valid()
      requires |seg| == MAG_BUFF_LEN
      modifies this`sensors
      ensures Valid()
      ensures State() == MagUpdate(old(State()), seg)
    {
      var heading := DecodeMag(seg);
      if heading.Some? {
        sensors := sensors.(mag := MagOut(heading.value));
      }
    }

    /** processBarometerMeasurements: each raw value is replaced only when its status bit is set
        (and kept from earlier cycles otherwise); the output is always recomputed. */
    method ProcessBaro(seg: seq<byte>)
      requires Valid()
      requires |seg| == BARO_BUFF_LEN
      modifies this`rawPressure, this`rawTemp, this`sensors
      ensures Valid()
      ensures State() == BaroUpdate(old(State()), seg)
    {
      if Masked(seg[0], LPS25H_P_DA) {
        rawPressure := UInt24(seg[1], seg[2], seg[3]);
      }
      if Masked(seg[0], LPS25H_T_DA) {
        rawTemp := Int16(seg[5], seg[4]);
      }
      sensors := sensors.(baro := BaroOut(BaroRaw(rawPressure, rawTemp)));
    }

    /** The commit at the end of a cycle, done with the scheduler suspended: the accelerometer and
        gyro queues are always overwritten, the magnetometer and barometer queues only when that
        sensor is present. */
    method Publish()
      requires Valid()
      modifies this`accelerometerDataQueue, this`gyroDataQueue, this`magnetometerDataQueue, this`barometerDataQueue
      ensures Valid()
      ensures accelerometerDataQueue == Some(sensors.acc) && gyroDataQueue == Some(sensors.gyro)
      ensures magnetometerDataQueue == if isMagnetometerPresent then Some(sensors.mag) else old(magnetometerDataQueue)
      ensures barometerDataQueue == if isBarometerPresent then Some(sensors.baro) else old(barometerDataQueue)
    {
      accelerometerDataQueue := Some(sensors.acc);
      gyroDataQueue := Some(sensors.gyro);
      if isMagnetometerPresent {
        magnetometerDataQueue := Some(sensors.mag);
      }
      if isBarometerPresent {
        barometerDataQueue := Some(sensors.baro);
      }
    }

    /** The bus read: the transfer fills the start of the static buffer with the bytes
        delivered, and the frame processed is that prefix. */
    method Transfer(read: seq<byte>) returns (frame: seq<byte>)
      requires |read| <= buffer.Length
      modifies buffer
      ensures frame == read
      ensures buffer[..|read|] == read
      ensures forall i :: |read| <= i < buffer.Length ==> buffer[i] == old(buffer[i])
    {
      forall i | 0 <= i < |read| {
        buffer[i] := read[i];
      }
      frame := buffer[..|read|];
    }

    /** The processing half of one iteration: each present sensor's segment is taken from its
        offset in the frame and converted into `sensors`. */
    method ProcessFrame(frame: seq<byte>, accNorm: real)
      requires Valid() && CalibrationValid()
      requires |frame| == DataLen(isMagnetometerPresent, isBarometerPresent)
      requires IsAccNorm(DecodeAccGyro(frame[..MPU6500_BUFF_LEN]).acc, accNorm)
      modifies this`gyroBiasSampleSum, this`gyroBiasSampleSumSquares, this`accScaleSum, this`accScale
      modifies this`sensorBiasSampleCount, this`sensorBiasFound, this`gyroBias, this`gyroBiasVariance
      modifies this`sensors, this`rawPressure, this`rawTemp
      ensures Valid() && CalibrationValid()
      ensures State() == ProcessSegments(old(State()), old(isMagnetometerPresent), old(isBarometerPresent), frame, accNorm)
    {
      ProcessAccGyro(frame[..MPU6500_BUFF_LEN], accNorm);
      if isMagnetometerPresent {
        ProcessMag(frame[MPU6500_BUFF_LEN..MPU6500_BUFF_LEN + MAG_BUFF_LEN]);
      }
      if isBarometerPresent {
        var off := BaroOffset(isMagnetometerPresent);
        ProcessBaro(frame[off..off + BARO_BUFF_LEN]);
      }
    }

    /** One iteration of sensorsTask after a data-ready signal. `read` is what the bus transfer
        delivers: exactly the bytes of the segments of the present sensors. They land at the
        start of the static buffer, each present sensor's segment is processed from its offset,
        and the results are committed together. */
    method Cycle(read: seq<byte>, accNorm: real)
      requires Valid() && CalibrationValid() && isInit
      requires |read| == DataLen(isMagnetometerPresent, isBarometerPresent)
      requires IsAccNorm(DecodeAccGyro(read[..MPU6500_BUFF_LEN]).acc, accNorm)
      modifies buffer
      modifies this`gyroBiasSampleSum, this`gyroBiasSampleSumSquares, this`accScaleSum, this`accScale
      modifies this`sensorBiasSampleCount, this`sensorBiasFound, this`gyroBias, this`gyroBiasVariance
      modifies this`sensors, this`rawPressure, this`rawTemp
      modifies this`accelerometerDataQueue, this`gyroDataQueue, this`magnetometerDataQueue, this`barometerDataQueue
      ensures Valid() && CalibrationValid()
      ensures buffer[..|read|] == read
      ensures forall i :: |read| <= i < buffer.Length ==> buffer[i] == old(buffer[i])
      ensures State() == ProcessSegments(old(State()), old(isMagnetometerPresent), old(isBarometerPresent), read, accNorm)
      ensures accelerometerDataQueue == Some(sensors.acc) && gyroDataQueue == Some(sensors.gyro)
      ensures magnetometerDataQueue == if isMagnetometerPresent then Some(sensors.mag) else None
      ensures barometerDataQueue == if isBarometerPresent then Some(sensors.baro) else None
    {
      var frame := Transfer(read);
      ProcessFrame(frame, accNorm);
      Publish();
    }

    /** Consecutive iterations of sensorsTask: after the frames `frames` (with accelerometer
        magnitudes `norms`), the calibration statics are `Run` over the frames' gyro samples. */
    method Cycles(frames: seq<seq<byte>>, norms: seq<real>)
      requires Valid() && CalibrationValid() && isInit
      requires |frames| == |norms|
      requires forall i :: 0 <= i < |frames| ==>
                 |frames[i]| == DataLen(isMagnetometerPresent, isBarometerPresent) &&
                 IsAccNorm(DecodeAccGyro(frames[i][..MPU6500_BUFF_LEN]).acc, norms[i])
      modifies buffer
      modifies this`gyroBiasSampleSum, this`gyroBiasSampleSumSquares, this`accScaleSum, this`accScale
      modifies this`sensorBiasSampleCount, this`sensorBiasFound, this`gyroBias, this`gyroBiasVariance
      modifies this`sensors, this`rawPressure, this`rawTemp
      modifies this`accelerometerDataQueue, this`gyroDataQueue, this`magnetometerDataQueue, this`barometerDataQueue
      ensures Valid() && CalibrationValid()
      ensures CalStatics() == Run(old(CalStatics()), GyroSamples(frames, isMagnetometerPresent, isBarometerPresent), norms)
    {
      ghost var gs := GyroSamples(frames, isMagnetometerPresent, isBarometerPresent);
      var i := 0;
      while i < |frames|
        invariant 0 <= i <= |frames|
        invariant Valid() && CalibrationValid()
        invariant CalStatics() == Run(old(CalStatics()), gs[..i], norms[..i])
      {
        Cycle(frames[i], norms[i]);
        RunPrefixStep(old(CalStatics()), gs, norms, i);
        i := i + 1;
      }
      assert gs[..i] == gs && norms[..i] == norms;
    }

    /** sensorsReadGyro: takes the queued value, if any, leaving the queue empty; on an empty
        queue it reports false and the caller's value stays as it was. */
    method ReadGyro(gyro: Vec3) returns (received: bool, gyro': Vec3)
      requires Valid() && isInit
      modifies this`gyroDataQueue
      ensures Valid()
      ensures received <==> old(gyroDataQueue).Some?
      ensures gyro' == old(gyroDataQueue).GetOr(gyro)
      ensures gyroDataQueue == None
    {
      received, gyro' := gyroDataQueue.Some?, gyroDataQueue.GetOr(gyro);
      gyroDataQueue := None;
    }

    /** sensorsReadAcc, as ReadGyro for the accelerometer queue. */
    method ReadAcc(acc: Accel) returns (received: bool, acc': Accel)
      requires Valid() && isInit
      modifies this`accelerometerDataQueue
      ensures Valid()
      ensures received <==> old(accelerometerDataQueue).Some?
      ensures acc' == old(accelerometerDataQueue).GetOr(acc)
      ensures accelerometerDataQueue == None
    {
      received, acc' := accelerometerDataQueue.Some?, accelerometerDataQueue.GetOr(acc);
      accelerometerDataQueue := None;
    }

    /** sensorsReadMag, as ReadGyro for the magnetometer queue. */
    method ReadMag(mag: Vec3) returns (received: bool, mag': Vec3)
      requires Valid() && isInit
      modifies this`magnetometerDataQueue
      ensures Valid()
      ensures received <==> old(magnetometerDataQueue).Some?
      ensures !isMagnetometerPresent ==> !received
      ensures mag' == old(magnetometerDataQueue).GetOr(mag)
      ensures magnetometerDataQueue == None
    {
      received, mag' := magnetometerDataQueue.Some?, magnetometerDataQueue.GetOr(mag);
      magnetometerDataQueue := None;
    }

    /** sensorsReadBaro, as ReadGyro for the barometer queue. */
    method ReadBaro(baro: Baro) returns (received: bool, baro': Baro)
      requires Valid() && isInit
      modifies this`barometerDataQueue
      ensures Valid()
      ensures received <==> old(barometerDataQueue).Some?
      ensures !isBarometerPresent ==> !received
      ensures baro' == old(barometerDataQueue).GetOr(baro)
      ensures barometerDataQueue == None
    {
      received, baro' := barometerDataQueue.Some?, barometerDataQueue.GetOr(baro);
      barometerDataQueue := None;
    }

    /** sensorsAcquire: reads all four queues into the caller's record; a field whose queue is
        empty keeps its previous value. */
    method Acquire(prev: SensorData) returns (data: SensorData)
      requires Valid() && isInit
      modifies this`accelerometerDataQueue, this`gyroDataQueue, this`magnetometerDataQueue, this`barometerDataQueue
      ensures Valid()
      ensures data == SensorData(old(accelerometerDataQueue).GetOr(prev.acc), old(gyroDataQueue).GetOr(prev.gyro),
                                 old(magnetometerDataQueue).GetOr(prev.mag), old(barometerDataQueue).GetOr(prev.baro))
      ensures accelerometerDataQueue == None && gyroDataQueue == None
      ensures magnetometerDataQueue == None && barometerDataQueue == None
    {
      data := prev;
      var received: bool;
      var gyro, acc, mag, baro;
      received, gyro := ReadGyro(data.gyro);
      received, acc := ReadAcc(data.acc);
      received, mag := ReadMag(data.mag);
      received, baro := ReadBaro(data.baro);
      data := SensorData(acc, gyro, mag, baro);
    }

    /** sensorsTest: fails when not initialised, retries the MPU6500 self-test, then requires each
        optional sensor to be present and to pass its own self-test, which runs only when every
        earlier check has passed. `mpuOutcomes`, `ak8963Outcome` and `lps25hOutcome` are what the
        sensors' self-tests report. */
    method Test(mpuOutcomes: seq<bool>, ak8963Outcome: bool, lps25hOutcome: bool)
      returns (testStatus: bool, mpuCalls: nat, ak8963Ran: bool, lps25hRan: bool)
      requires Valid()
      requires |mpuOutcomes| == MPU6500_SELF_TEST_ATTEMPTS
      modifies this`isAK8963TestPassed, this`isLPS25HTestPassed
      ensures Valid()
      ensures testStatus == (isInit && AnyPassed(mpuOutcomes) && isMagnetometerPresent && ak8963Outcome &&
                             isBarometerPresent && lps25hOutcome)
      ensures 1 <= mpuCalls <= MPU6500_SELF_TEST_ATTEMPTS
      ensures forall j :: 0 <= j < mpuCalls - 1 ==> !mpuOutcomes[j]
      ensures AnyPassed(mpuOutcomes) ==> mpuOutcomes[mpuCalls - 1]
      ensures !AnyPassed(mpuOutcomes) ==> mpuCalls == MPU6500_SELF_TEST_ATTEMPTS
      ensures ak8963Ran == (isInit && AnyPassed(mpuOutcomes) && isMagnetometerPresent)
      ensures lps25hRan == (ak8963Ran && ak8963Outcome && isBarometerPresent)
      ensures isAK8963TestPassed == if ak8963Ran then ak8963Outcome else old(isAK8963TestPassed)
      ensures isLPS25HTestPassed == if lps25hRan then lps25hOutcome else old(isLPS25HTestPassed)
    {
      var mpu6500SelfTestPassed: bool;
      testStatus := true;
      if !isInit {
        testStatus := false;
      }

      mpu6500SelfTestPassed, mpuCalls := PrimarySelfTest(mpuOutcomes);
      testStatus := testStatus && mpu6500SelfTestPassed;

      testStatus := testStatus && isMagnetometerPresent;
      ak8963Ran := testStatus;
      if testStatus {
        isAK8963TestPassed := ak8963Outcome;
        testStatus := isAK8963TestPassed;
      }

      testStatus := testStatus && isBarometerPresent;
      lps25hRan := testStatus;
      if testStatus {
        isLPS25HTestPassed := lps25hOutcome;
        testStatus := isLPS25HTestPassed;
      }
    }
  }
}
