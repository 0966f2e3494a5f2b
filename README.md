# Crazyflie sensor task, modelled in Dafny

This project models the interrupt-driven sensor task of the Crazyflie 2.0 firmware
(`src/modules/src/sensors_task.c`). Each cycle the task reads one frame over the bus. The
frame holds the MPU6500 accelerometer/gyro registers and, when present, the AK8963
magnetometer and LPS25H barometer registers chained behind them. The task decodes each
sensor's segment and undoes the 90-degree mounting of the IMU. While the gyro is not yet
calibrated, the samples feed an online calibration: after 1024 samples the gyro bias, its
spread and the accelerometer scale are fixed for good. Every reading is converted to physical
units, and the results go to four single-slot queues that readers drain without blocking. The
module also has an init guard, a calibration query and a startup self-test that aggregates the
sensors' own self-tests.

Modules:

- `ImuTypes` (`imu_types.dfy`): the shared value types. These are the raw and physical
  triplets, the barometer reading, the per-cycle `SensorData` record and an `Option`.
- `Frame` (`frame.dfy`): the bytes.
  - Two's-complement 16-bit and unsigned 24-bit assembly.
  - The frame layout: length and offsets for each presence of the optional sensors.
  - A decoder for each segment, with an encoder beside it for the round trips.
- `Normalize` (`normalize.dfy`): the conversion to deg/s, g, gauss, mbar and degrees
  Celsius. It includes the axis-sign correction and the accelerometer magnitude, over exact
  reals.
- `Calibration` (`calibration.dfy`): the calibration statics as a value `CalState`.
  - `Step` is one call's update; `Run` folds it over a sample history.
  - Lemmas cover convergence after exactly 1024 samples, freezing afterwards, overflow
    freedom of the 64-bit sums, a non-negative spread, and calibration at rest.
- `SensorsTask` (`sensors_task.dfy`): the module statics as the class `SensorsState`.
  - Its methods change the fields as the C functions do.
  - Each segment handler is proved against a pure update function on a `TaskState`
    snapshot. `ProcessSegments` composes those functions for one frame.
  - The object invariant has two parts: `Valid` (buffer size, raw barometer ranges, an absent
    sensor's queue stays empty) and `CalibrationValid` (`Calibration.Consistent`).
  - The MPU6500 self-test retry loop is a stand-alone method, `PrimarySelfTest`.

Unit constants from the device driver headers are abstract. The scale factors
`MPU6500_DEG_PER_LSB_2000`, `MPU6500_G_PER_LSB_8`, `LPS25H_LSB_PER_MBAR` and
`LPS25H_LSB_PER_CELSIUS` are positive; the temperature offset `LPS25H_TEMP_OFFSET` is an
unconstrained real.
`MAG_GAUSS_PER_LSB` is 666.7 as defined in the file. `(int16_t)` conversions of out-of-range
values are taken to wrap modulo 2^16, as the firmware's compiler does.

## Model

| member | source | states |
|---|---|---|
| `Frame.Int16` | src/modules/src/sensors_task.c:204-209 | the assembled value is a signed 16-bit value congruent to `hi*256+lo` modulo 2^16 |
| `Frame.Int16OfEncoding` | src/modules/src/sensors_task.c:204-209 | every int16 is assembled back from its two encoding bytes |
| `Frame.EncodingOfInt16` | src/modules/src/sensors_task.c:204-209 | the assembly is injective: the bytes are recovered from the value |
| `Frame.UInt24` | src/modules/src/sensors_task.c:176 | the pressure word is below 2^24 and each of its three bytes is recovered from it |
| `Frame.LayoutTilesRead` | src/modules/src/sensors_task.c:144-156 | the read length fits the buffer and a `uint8_t`; present segments lie inside the read, do not overlap, and cover every byte read |
| `Frame.DecodeAccGyro` | src/modules/src/sensors_task.c:203-209 | the six decoded words are int16 values |
| `Frame.DecodeEncodeAccGyro` | src/modules/src/sensors_task.c:203-209 | decoding what a sensor sends returns its (board-axis) readings, whatever the temperature |
| `Frame.EncodeDecodeAccGyro` | src/modules/src/sensors_task.c:203-209 | every 14-byte segment is the encoding of its decoded readings and its temperature word: nothing but bytes 6-7 is dropped |
| `Frame.TemperatureBytesIgnored` | src/modules/src/sensors_task.c:203-209 | bytes 6-7 never affect the readings |
| `Frame.DecodeMag` | src/modules/src/sensors_task.c:188-198 | a heading is produced exactly when ST1's DRDY bit is set, and it is an int16 triplet |
| `Frame.DecodeEncodeMag` | src/modules/src/sensors_task.c:188-198 | a sent heading is decoded back exactly when its status flags data ready |
| `Frame.UpdateBaroRaw` | src/modules/src/sensors_task.c:171-181 | pressure and temperature are each replaced only when their own status bit is set, kept otherwise, and stay in range |
| `Frame.DecodeEncodeBaro` | src/modules/src/sensors_task.c:174-181 | a sent raw value replaces the kept one exactly when its status bit is set |
| `Normalize.GyroOut` | src/modules/src/sensors_task.c:240-242 | the raw rate is recovered from the output and the bias; X has the opposite sign |
| `Normalize.AccOut` | src/modules/src/sensors_task.c:244-246 | the output is finite exactly when the scale is non-zero, and then scaled back it gives the raw reading; X has the opposite sign |
| `Normalize.MagOut` | src/modules/src/sensors_task.c:195-197 | each output times 666.7 is the raw heading |
| `Normalize.BaroOut` | src/modules/src/sensors_task.c:183-184 | pressure and offset-corrected temperature times their LSB factors are the raw values |
| `Normalize.MagnitudeSquared` | src/modules/src/sensors_task.c:221 | the radicand of the magnitude is never negative |
| `Normalize.UncalibratedOutput` | src/modules/src/sensors_task.c:240-246 | with the power-up bias 0 and scale 1 the outputs are the raw readings times the LSB factors, X sign-inverted |
| `Normalize.RotatedMountingExample` | src/modules/src/sensors_task.c:203-246 | a concrete frame: the first word on the wire comes out as Y, the second as -X |
| `Normalize.BiasCancelsRestingRate` | src/modules/src/sensors_task.c:240-242 | a reading equal to the bias gives a zero rate |
| `Normalize.ScaleNormalisesToOneG` | src/modules/src/sensors_task.c:244-246 | a reading divided by its own magnitude has magnitude exactly 1 g |
| `Calibration.Mean` | src/modules/src/sensors_task.c:226-228 | the bias times 1024 is the sum |
| `Calibration.Step` | src/modules/src/sensors_task.c:211-238 | frozen once found; otherwise the sums and count grow by the sample, and the bias is found exactly on the 1024th sample |
| `Calibration.RunFromInitial` | src/modules/src/sensors_task.c:211-238 | from power-up: the count is min(n, 1024), found iff n >= 1024, the sums are those of the first 1024 samples, the fixed values are their means; bias 0 and scale 1 before |
| `Calibration.RunPrefixStep` | src/modules/src/sensors_task.c:211-238 | the calibration after the first i+1 samples is one more step on the calibration after the first i |
| `Calibration.RunAppend` | src/modules/src/sensors_task.c:211-238 | feeding two histories in turn is feeding their concatenation |
| `Calibration.FrozenAfterConvergence` | src/modules/src/sensors_task.c:211 | once found, no further samples change any calibration value |
| `Calibration.SumBounds` | src/modules/src/sensors_task.c:213-219 | the sums of n int16 samples and of their squares stay within n times the per-sample bounds |
| `Calibration.AccumulatorsFitInt64` | src/modules/src/sensors_task.c:76-83 | whatever the samples, the `Axis3i64` sums and the `uint32_t` counter never overflow |
| `Calibration.ConsistentFitsInt64` | src/modules/src/sensors_task.c:76-83 | a state satisfying the invariant has its sums within int64 and the counter within uint32 |
| `Calibration.StepKeepsConsistent` | src/modules/src/sensors_task.c:211-238 | one step on an int16 sample preserves the calibration invariant |
| `Calibration.RunKeepsConsistent` | src/modules/src/sensors_task.c:211-238 | any run of int16 samples preserves the calibration invariant |
| `Calibration.SpreadNonNegative` | src/modules/src/sensors_task.c:230-234 | the value the standard deviation's square root is taken of is never negative |
| `Calibration.CalibrationAtRest` | src/modules/src/sensors_task.c:224-242 | with a constant gyro reading g and magnitude m during warm-up, the bias becomes g, the scale m, and g then reads as zero rate |
| `SensorsTask.PrimarySelfTest` | src/modules/src/sensors_task.c:456-467 | the retry loop passes iff some attempt passes, stops at the first success, and makes 300 calls when all fail |
| `SensorsTask.AccGyroUpdate` | src/modules/src/sensors_task.c:201-247 | one calibration step; magnetometer and barometer outputs are untouched |
| `SensorsTask.AccGyroUpdateOfSent` | src/modules/src/sensors_task.c:201-247 | for what an MPU6500 sends: one step, then the gyro rate relative to the bias after that step and the acceleration divided by the scale after it; nothing else changes |
| `SensorsTask.MagUpdate` | src/modules/src/sensors_task.c:188-199 | only the heading can change, and nothing changes without new data |
| `SensorsTask.MagUpdateOfSent` | src/modules/src/sensors_task.c:188-199 | for what an AK8963 sends: with data ready the heading output becomes the sent heading divided by 666.7; without, nothing changes |
| `SensorsTask.BaroUpdate` | src/modules/src/sensors_task.c:169-186 | the raw values take the sticky update, the barometer output is converted from the updated raw values, and nothing else changes |
| `SensorsTask.BaroUpdateOfSent` | src/modules/src/sensors_task.c:169-186 | for what an LPS25H sends: each raw value is the sent one when its status bit is set and the kept one otherwise, and the output is converted from those |
| `SensorsTask.ProcessSegments` | src/modules/src/sensors_task.c:149-157 | one calibration step per frame; an absent sensor's output and raw values are untouched |
| `SensorsTask.ProcessSegmentsOfPresent` | src/modules/src/sensors_task.c:149-157 | a present sensor's segment is processed from its offset: gyro/acc converted with the calibration after the step, the heading from bytes 14-21 when they flag new data, the raw barometer values from the barometer's offset, converted into the output |
| `SensorsTask.ImuIndependentOfOptionalSensors` | src/modules/src/sensors_task.c:149-157 | the calibration and the gyro/accelerometer outputs depend only on the MPU6500 segment |
| `SensorsTask.CompletingSampleUsesNewBias` | src/modules/src/sensors_task.c:225-246 | the 1024th sample is already converted with the bias and scale it completes |
| `SensorsTask.SensorsState.constructor` | src/modules/src/sensors_task.c:64-97 | the power-up statics: nothing present, queues empty, test flags true, calibration initial, zero buffer |
| `SensorsTask.SensorsState.Init` | src/modules/src/sensors_task.c:431-442 | a second call changes nothing; the first sets each presence flag from its connection test and creates empty queues |
| `SensorsTask.SensorsState.AreCalibrated` | src/modules/src/sensors_task.c:129-131 | true exactly when 1024 samples are counted; the bias and scale in use are then the means, and the power-up values before |
| `SensorsTask.SensorsState.Accumulate` | src/modules/src/sensors_task.c:211-238 | the calibration statics take exactly one `Step` and keep the invariant |
| `SensorsTask.SensorsState.ProcessAccGyro` | src/modules/src/sensors_task.c:201-247 | the statics move as `AccGyroUpdate` |
| `SensorsTask.SensorsState.ProcessMag` | src/modules/src/sensors_task.c:188-199 | the statics move as `MagUpdate` |
| `SensorsTask.SensorsState.ProcessBaro` | src/modules/src/sensors_task.c:169-186 | the statics move as `BaroUpdate` |
| `SensorsTask.SensorsState.Publish` | src/modules/src/sensors_task.c:159-164 | accelerometer and gyro queues are overwritten; magnetometer and barometer queues only when present |
| `SensorsTask.SensorsState.Transfer` | src/modules/src/sensors_task.c:144-148 | the read lands at the start of the buffer, the rest of the buffer is untouched |
| `SensorsTask.SensorsState.ProcessFrame` | src/modules/src/sensors_task.c:149-157 | the statics move as `ProcessSegments` for the sensors present |
| `SensorsTask.SensorsState.Cycle` | src/modules/src/sensors_task.c:141-165 | buffer filled, statics moved as `ProcessSegments`, and every queue holds the new output exactly when its sensor is present |
| `SensorsTask.SensorsState.Cycles` | src/modules/src/sensors_task.c:141-165 | after consecutive cycles the calibration statics are `Calibration.Run` over the gyro samples of the frames read, in order |
| `SensorsTask.SensorsState.ReadGyro` | src/modules/src/sensors_task.c:104-106 | reports whether a value was queued, returns it (or leaves the caller's value), and empties the queue |
| `SensorsTask.SensorsState.ReadAcc` | src/modules/src/sensors_task.c:108-110 | as `ReadGyro`, for the accelerometer queue |
| `SensorsTask.SensorsState.ReadMag` | src/modules/src/sensors_task.c:112-114 | as `ReadGyro`; never receives when the magnetometer is absent |
| `SensorsTask.SensorsState.ReadBaro` | src/modules/src/sensors_task.c:116-119 | as `ReadGyro`; never receives when the barometer is absent |
| `SensorsTask.SensorsState.Acquire` | src/modules/src/sensors_task.c:121-127 | each field is the queued value or the caller's previous one, and all four queues end empty |
| `SensorsTask.SensorsState.Test` | src/modules/src/sensors_task.c:444-489 | passes iff initialised, some MPU6500 attempt passes, both optional sensors are present and pass; the MPU6500 test stops at its first success and is tried 300 times when every attempt fails; each optional self-test runs only when every earlier check passed |

## Left out

- Floating point: all conversions and the calibration arithmetic are over exact reals. Rounding is not modelled, so neither is a rounding-induced negative radicand or NaN. A zero accelerometer scale (every warm-up sample of magnitude zero) is represented as `Accel.NotFinite` rather than as IEEE infinities.
- `sqrtf`: the accelerometer magnitude is a parameter `accNorm` of `ProcessAccGyro`, `ProcessFrame` and `Cycle` (one per frame, `norms`, in `Cycles`). It is required to be the non-negative square root of `MagnitudeSquared`.
- `gyroBiasStdDev`: modelled as its radicand, `gyroBiasVariance`; the square root is not taken.
- `lps25hPressureToAltitude` (`sensors.baro.asl`): a foreign call, so the altitude field is not modelled.
- The bus transfer `i2cdevRead`: `Cycle` receives the bytes read. A failed read is not modelled, because the firmware ignores its result.
- The semaphore wait, the data-ready interrupt handler `EXTI13_Callback` and the endlessness of the task loop are left out. `Cycle` is one iteration after a data-ready signal, and `Cycles` a finite run of them.
- `vTaskSuspendAll`/`xTaskResumeAll`: the publication is one atomic method, and concurrent readers are not modelled.
- `sensorsDeviceInit`, `sensorsSetupSlaveRead` and `sensorsInterruptInit` are register writes and delays on the hardware. Only their effect on the presence flags is kept, with the connection tests as parameters of `Init`.
- The MPU6500, AK8963 and LPS25H self-tests are parameters of `Test`, and the 10 ms delay between attempts is dropped.
- The `DEBUG_PRINT` messages and the `PARAM` tables, which only expose flags.
- The device driver headers are not part of this model. Their per-LSB scale factors are abstract positive constants, the barometer temperature offset an abstract real, and the AK8963 DRDY bit is taken as bit 0 of ST1.
- The queue handles before `sensorsInit`: in the firmware they do not exist until `sensorsTaskInit` creates them, and the task that runs a cycle is created there too. The model represents them as empty from power-up; `Cycle`, `Cycles`, the `Read*` methods and `Acquire` require `isInit`, so none of them can be used before `Init`.
- SensorsTask.SensorsState.AreCalibrated: states the count and the fixed values, not "1024 samples since power-up". The statics keep no sample history. That the calibration after n cycles equals `Calibration.Run` over their gyro samples is the contract of `Cycles`, starting from the constructor's `Calibration.Initial`; it is not a class invariant.
