/** The online gyro-bias / accelerometer-scale calibration of processAccGyroMeasurements
    (src/modules/src/sensors_task.c): accumulate a fixed number of samples, then fix the bias,
    the spread and the scale once and never accumulate again. The state is a value here; the
    class in SensorsTask holds it in fields and is proved to follow `Step`. */
module Calibration {
  import opened ImuTypes
  import opened Frame
  import opened Normalize

  /** Number of samples averaged before the bias is fixed. */
  const IMU_SENSOR_BIAS_SAMPLES: nat := 1024

  /** The calibration statics. `gyroBiasVariance` is the radicand the firmware takes the square
      root of for `gyroBiasStdDev`. */
  datatype CalState = CalState(
    gyroBiasSampleSum: Axis3i,
    gyroBiasSampleSumSquares: Axis3i,
    accScaleSum: real,
    accScale: real,
    sensorBiasSampleCount: nat,
    sensorBiasFound: bool,
    gyroBias: Vec3,
    gyroBiasVariance: Vec3)

  /** The static initialisers: empty sums, scale 1, no bias. */
  const Initial: CalState :=
    CalState(Axis3i(0, 0, 0), Axis3i(0, 0, 0), 0.0, 1.0, 0, false, Zero, Zero)

  function Add(a: Axis3i, b: Axis3i): Axis3i {
    Axis3i(a.x + b.x, a.y + b.y, a.z + b.z)
  }

  function Squares(a: Axis3i): Axis3i {
    Axis3i(a.x * a.x, a.y * a.y, a.z * a.z)
  }

  /** The per-axis mean of `IMU_SENSOR_BIAS_SAMPLES` samples with this sum. */
  function Mean(sum: Axis3i): (m: Vec3)
    ensures m.x * IMU_SENSOR_BIAS_SAMPLES as real == sum.x as real
    ensures m.y * IMU_SENSOR_BIAS_SAMPLES as real == sum.y as real
    ensures m.z * IMU_SENSOR_BIAS_SAMPLES as real == sum.z as real
  {
    var n := IMU_SENSOR_BIAS_SAMPLES as real;
    Vec3(sum.x as real / n, sum.y as real / n, sum.z as real / n)
  }

  /** Mean of the squares minus the square of the mean, per axis. */
  function Spread(sumSquares: Axis3i, mean: Vec3): Vec3 {
    var n := IMU_SENSOR_BIAS_SAMPLES as real;
    Vec3(sumSquares.x as real / n - mean.x * mean.x,
         sumSquares.y as real / n - mean.y * mean.y,
         sumSquares.z as real / n - mean.z * mean.z)
  }

  /** The calibration part of one call of processAccGyroMeasurements, given the raw gyro triplet
      and the magnitude (in g) of the uncalibrated accelerometer reading. */
  function Step(c: CalState, gyro: Axis3i, accNorm: real): (r: CalState)
    ensures c.sensorBiasFound ==> r == c
    ensures !c.sensorBiasFound ==>
              r.sensorBiasSampleCount == c.sensorBiasSampleCount + 1 &&
              r.gyroBiasSampleSum == Add(c.gyroBiasSampleSum, gyro) &&
              r.gyroBiasSampleSumSquares == Add(c.gyroBiasSampleSumSquares, Squares(gyro)) &&
              r.accScaleSum == c.accScaleSum + accNorm
    ensures r.sensorBiasFound <==> c.sensorBiasFound || c.sensorBiasSampleCount + 1 == IMU_SENSOR_BIAS_SAMPLES
  {
    if c.sensorBiasFound then c
    else
      var sum := Add(c.gyroBiasSampleSum, gyro);
      var squares := Add(c.gyroBiasSampleSumSquares, Squares(gyro));
      var accSum := c.accScaleSum + accNorm;
      var count := c.sensorBiasSampleCount + 1;
      if count == IMU_SENSOR_BIAS_SAMPLES then
        var bias := Mean(sum);
        CalState(sum, squares, accSum, accSum / IMU_SENSOR_BIAS_SAMPLES as real, count, true, bias, Spread(squares, bias))
      else
        c.(gyroBiasSampleSum := sum, gyroBiasSampleSumSquares := squares, accScaleSum := accSum,
           sensorBiasSampleCount := count)
  }

  /** The state after feeding the samples `gyros` (with accelerometer magnitudes `norms`) in order. */
  function Run(c: CalState, gyros: seq<Axis3i>, norms: seq<real>): CalState
    requires |gyros| == |norms|
    decreases |gyros|
  {
    if gyros == [] then c
    else Step(Run(c, gyros[..|gyros| - 1], norms[..|norms| - 1]), gyros[|gyros| - 1], norms[|norms| - 1])
  }

  // ---------------------------------------------------------------------------------------
  // Sums over a sample history
  // ---------------------------------------------------------------------------------------

  function SumOf(s: seq<Axis3i>): Axis3i {
    if s == [] then Axis3i(0, 0, 0) else Add(SumOf(s[..|s| - 1]), s[|s| - 1])
  }

  function SumOfSquares(s: seq<Axis3i>): Axis3i {
    if s == [] then Axis3i(0, 0, 0) else Add(SumOfSquares(s[..|s| - 1]), Squares(s[|s| - 1]))
  }

  function RealSum(s: seq<real>): real {
    if s == [] then 0.0 else RealSum(s[..|s| - 1]) + s[|s| - 1]
  }

  function Min(a: nat, b: nat): nat { if a <= b then a else b }

  /** What holds of the fixed calibration values once the bias is found. */
  predicate Fixed(c: CalState) {
    c.gyroBias == Mean(c.gyroBiasSampleSum) &&
    c.gyroBiasVariance == Spread(c.gyroBiasSampleSumSquares, c.gyroBias) &&
    c.accScale * IMU_SENSOR_BIAS_SAMPLES as real == c.accScaleSum
  }

  /** From the initial state, after any number of samples: the count is the number of samples
      up to 1024 and never more; the bias is found exactly when 1024 samples have been seen; the
      sums are those of the first (at most 1024) samples; once found the bias is their mean and
      the scale their mean magnitude; before that the bias is 0 and the scale 1. */
  lemma {:induction false} RunFromInitial(gyros: seq<Axis3i>, norms: seq<real>)
    requires |gyros| == |norms|
    ensures var r := Run(Initial, gyros, norms);
            var k := Min(|gyros|, IMU_SENSOR_BIAS_SAMPLES);
            r.sensorBiasSampleCount == k &&
            (r.sensorBiasFound <==> |gyros| >= IMU_SENSOR_BIAS_SAMPLES) &&
            r.gyroBiasSampleSum == SumOf(gyros[..k]) &&
            r.gyroBiasSampleSumSquares == SumOfSquares(gyros[..k]) &&
            r.accScaleSum == RealSum(norms[..k]) &&
            (r.sensorBiasFound ==> Fixed(r)) &&
            (!r.sensorBiasFound ==> r.gyroBias == Zero && r.gyroBiasVariance == Zero && r.accScale == 1.0)
  {
    var n := |gyros|;
    if n == 0 {
    } else {
      var gs, ns := gyros[..n - 1], norms[..n - 1];
      RunFromInitial(gs, ns);
      var p := Run(Initial, gs, ns);
      var k := Min(n, IMU_SENSOR_BIAS_SAMPLES);
      if n - 1 >= IMU_SENSOR_BIAS_SAMPLES {
        assert gs[..IMU_SENSOR_BIAS_SAMPLES] == gyros[..k];
        assert ns[..IMU_SENSOR_BIAS_SAMPLES] == norms[..k];
      } else {
        assert gs == gyros[..k][..k - 1] && gyros[..k][k - 1] == gyros[n - 1];
        assert ns == norms[..k][..k - 1] && norms[..k][k - 1] == norms[n - 1];
        assert gs[..n - 1] == gs && ns[..n - 1] == ns;
      }
    }
  }

  /** Feeding one more sample is one more step. */
  lemma RunSnoc(c: CalState, gyros: seq<Axis3i>, norms: seq<real>, g: Axis3i, n: real)
    requires |gyros| == |norms|
    ensures Run(c, gyros + [g], norms + [n]) == Step(Run(c, gyros, norms), g, n)
  {
    assert (gyros + [g])[..|gyros|] == gyros && (norms + [n])[..|norms|] == norms;
  }

  /** Extending a prefix of a history by its next sample is one more step. */
  lemma RunPrefixStep(c: CalState, gyros: seq<Axis3i>, norms: seq<real>, i: nat)
    requires |gyros| == |norms| && i < |gyros|
    ensures Run(c, gyros[..i + 1], norms[..i + 1]) == Step(Run(c, gyros[..i], norms[..i]), gyros[i], norms[i])
  {
    assert gyros[..i + 1] == gyros[..i] + [gyros[i]] && norms[..i + 1] == norms[..i] + [norms[i]];
    RunSnoc(c, gyros[..i], norms[..i], gyros[i], norms[i]);
  }

  /** Feeding samples one history after another is feeding the joined history. */
  lemma {:induction false} RunAppend(c: CalState, g1: seq<Axis3i>, n1: seq<real>, g2: seq<Axis3i>, n2: seq<real>)
    requires |g1| == |n1| && |g2| == |n2|
    ensures Run(c, g1 + g2, n1 + n2) == Run(Run(c, g1, n1), g2, n2)
    decreases |g2|
  {
    if g2 == [] {
      assert g1 + g2 == g1 && n1 + n2 == n1;
    } else {
      var m := |g2| - 1;
      RunAppend(c, g1, n1, g2[..m], n2[..m]);
      assert (g1 + g2)[..|g1 + g2| - 1] == g1 + g2[..m];
      assert (n1 + n2)[..|n1 + n2| - 1] == n1 + n2[..m];
    }
  }

  /** Once the bias is found, no further sample changes any calibration value. */
  lemma {:induction false} FrozenAfterConvergence(c: CalState, gyros: seq<Axis3i>, norms: seq<real>)
    requires c.sensorBiasFound && |gyros| == |norms|
    ensures Run(c, gyros, norms) == c
    decreases |gyros|
  {
    if gyros != [] {
      FrozenAfterConvergence(c, gyros[..|gyros| - 1], norms[..|norms| - 1]);
    }
  }

  // ---------------------------------------------------------------------------------------
  // Accumulator ranges
  // ---------------------------------------------------------------------------------------

  predicate IsInt64(v: int) { -0x8000_0000_0000_0000 <= v < 0x8000_0000_0000_0000 }

  predicate IsInt64Axis(a: Axis3i) { IsInt64(a.x) && IsInt64(a.y) && IsInt64(a.z) }

  predicate AllInt16(s: seq<Axis3i>) { forall i :: 0 <= i < |s| ==> IsInt16Axis(s[i]) }

  lemma MulMonotone(a: int, b: int, c: int)
    requires a <= b && c >= 0
    ensures a * c <= b * c
  {
  }

  lemma SquareNonNegative(a: int)
    ensures a * a >= 0
  {
    if a < 0 {
      MulMonotone(a, 0, -a);
    } else {
      MulMonotone(0, a, a);
    }
  }

  lemma SquareOfInt16(v: int)
    requires IsInt16(v)
    ensures 0 <= v * v <= 0x4000_0000
  {
    var w := if v >= 0 then v else -v;
    assert v * v == w * w;
    MulMonotone(w, 32768, w);
    MulMonotone(w, 32768, 32768);
    SquareNonNegative(v);
  }

  /** The sums of n signed 16-bit samples lie in [-32768 n, 32767 n]; the sums of squares in
      [0, 2^30 n]. */
  lemma {:induction false} SumBounds(s: seq<Axis3i>)
    requires AllInt16(s)
    ensures var sum := SumOf(s);
            -32768 * |s| <= sum.x <= 32767 * |s| && -32768 * |s| <= sum.y <= 32767 * |s| &&
            -32768 * |s| <= sum.z <= 32767 * |s|
    ensures var sq := SumOfSquares(s);
            0 <= sq.x <= 0x4000_0000 * |s| && 0 <= sq.y <= 0x4000_0000 * |s| && 0 <= sq.z <= 0x4000_0000 * |s|
  {
    if s != [] {
      var last := s[|s| - 1];
      assert IsInt16Axis(last);
      SumBounds(s[..|s| - 1]);
      SquareOfInt16(last.x); SquareOfInt16(last.y); SquareOfInt16(last.z);
    }
  }

  /** The 64-bit sums and the 32-bit counter never overflow, whatever samples arrive. */
  lemma AccumulatorsFitInt64(gyros: seq<Axis3i>, norms: seq<real>)
    requires |gyros| == |norms| && AllInt16(gyros)
    ensures var r := Run(Initial, gyros, norms);
            IsInt64Axis(r.gyroBiasSampleSum) && IsInt64Axis(r.gyroBiasSampleSumSquares) &&
            r.sensorBiasSampleCount < 0x1_0000_0000
  {
    RunFromInitial(gyros, norms);
    var k := Min(|gyros|, IMU_SENSOR_BIAS_SAMPLES);
    SumBounds(gyros[..k]);
  }

  /** Per-axis bounds of a sum of `n` signed 16-bit samples. */
  predicate SumWithin(a: Axis3i, n: int) {
    -32768 * n <= a.x <= 32767 * n && -32768 * n <= a.y <= 32767 * n && -32768 * n <= a.z <= 32767 * n
  }

  /** Per-axis bounds of a sum of the squares of `n` signed 16-bit samples. */
  predicate SquaresWithin(a: Axis3i, n: int) {
    0 <= a.x <= 0x4000_0000 * n && 0 <= a.y <= 0x4000_0000 * n && 0 <= a.z <= 0x4000_0000 * n
  }

  /** The invariant of the calibration statics: at most 1024 samples are counted, the bias is
      found exactly at 1024, the sums are within what that many 16-bit samples can produce, the
      fixed values are the means once found and the power-up bias and scale before. */
  predicate Consistent(c: CalState) {
    c.sensorBiasSampleCount <= IMU_SENSOR_BIAS_SAMPLES &&
    (c.sensorBiasFound <==> c.sensorBiasSampleCount == IMU_SENSOR_BIAS_SAMPLES) &&
    SumWithin(c.gyroBiasSampleSum, c.sensorBiasSampleCount) &&
    SquaresWithin(c.gyroBiasSampleSumSquares, c.sensorBiasSampleCount) &&
    (c.sensorBiasFound ==> Fixed(c)) &&
    (!c.sensorBiasFound ==> c.gyroBias == Zero && c.gyroBiasVariance == Zero && c.accScale == 1.0)
  }

  /** A consistent state's accumulators fit the firmware's 64-bit sums and 32-bit counter. */
  lemma ConsistentFitsInt64(c: CalState)
    requires Consistent(c)
    ensures IsInt64Axis(c.gyroBiasSampleSum) && IsInt64Axis(c.gyroBiasSampleSumSquares)
    ensures c.sensorBiasSampleCount < 0x1_0000_0000
  {
  }

  /** One step on a 16-bit sample keeps the statics consistent. */
  lemma StepKeepsConsistent(c: CalState, gyro: Axis3i, accNorm: real)
    requires Consistent(c) && IsInt16Axis(gyro)
    ensures Consistent(Step(c, gyro, accNorm))
  {
    if !c.sensorBiasFound {
      SquareOfInt16(gyro.x); SquareOfInt16(gyro.y); SquareOfInt16(gyro.z);
    }
  }

  /** Any run of 16-bit samples from a consistent state ends in a consistent state. */
  lemma {:induction false} RunKeepsConsistent(c: CalState, gyros: seq<Axis3i>, norms: seq<real>)
    requires Consistent(c) && AllInt16(gyros) && |gyros| == |norms|
    ensures Consistent(Run(c, gyros, norms))
    decreases |gyros|
  {
    if gyros != [] {
      var n := |gyros| - 1;
      RunKeepsConsistent(c, gyros[..n], norms[..n]);
      StepKeepsConsistent(Run(c, gyros[..n], norms[..n]), gyros[n], norms[n]);
    }
  }

  // ---------------------------------------------------------------------------------------
  // The spread is never negative
  // ---------------------------------------------------------------------------------------

  lemma SpreadIdentities(n: int, sum: int, squares: int, x: int)
    ensures (n + 1) * (squares + x * x) - (sum + x) * (sum + x) ==
            (n * squares - sum * sum) + (squares + n * (x * x) - 2 * sum * x)
    ensures n * (squares + n * (x * x) - 2 * sum * x) == (n * squares - sum * sum) + (sum - n * x) * (sum - n * x)
  {
  }

  lemma SpreadStep(n: nat, sum: int, squares: int, x: int)
    requires squares >= 0 && sum * sum <= n * squares
    ensures (sum + x) * (sum + x) <= (n + 1) * (squares + x * x)
  {
    var slack := squares + n * (x * x) - 2 * sum * x;
    SpreadIdentities(n, sum, squares, x);
    if n == 0 {
      if sum > 0 {
        MulMonotone(1, sum, sum);
      } else if sum < 0 {
        MulMonotone(1, -sum, -sum);
      }
      assert sum == 0;
    } else {
      SquareNonNegative(sum - n * x);
      assert n * slack >= 0;
      if slack < 0 {
        MulMonotone(slack, -1, n);
      }
    }
  }

  /** Cauchy-Schwarz for a sample history: (sum)^2 <= n * (sum of squares), per axis. */
  lemma {:induction false} SquaredSumBound(s: seq<Axis3i>)
    ensures var sum, sq := SumOf(s), SumOfSquares(s);
            sq.x >= 0 && sq.y >= 0 && sq.z >= 0 &&
            sum.x * sum.x <= |s| * sq.x && sum.y * sum.y <= |s| * sq.y && sum.z * sum.z <= |s| * sq.z
  {
    if s != [] {
      var init, last := s[..|s| - 1], s[|s| - 1];
      SquaredSumBound(init);
      var sum, sq := SumOf(init), SumOfSquares(init);
      SpreadStep(|init|, sum.x, sq.x, last.x);
      SpreadStep(|init|, sum.y, sq.y, last.y);
      SpreadStep(|init|, sum.z, sq.z, last.z);
    }
  }

  lemma SpreadOfBoundedSum(sum: int, squares: int)
    requires sum * sum <= IMU_SENSOR_BIAS_SAMPLES * squares
    ensures var n := IMU_SENSOR_BIAS_SAMPLES as real;
            squares as real / n - (sum as real / n) * (sum as real / n) >= 0.0
  {
    var n := IMU_SENSOR_BIAS_SAMPLES as real;
    var m := sum as real / n;
    assert m * n == sum as real;
    assert (m * m) * (n * n) == (m * n) * (m * n);
    assert (sum * sum) as real == (sum as real) * (sum as real);
    assert (m * m) * (n * n) <= (IMU_SENSOR_BIAS_SAMPLES * squares) as real;
  }

  lemma SpreadOfBoundedSums(sum: Axis3i, squares: Axis3i)
    requires sum.x * sum.x <= IMU_SENSOR_BIAS_SAMPLES * squares.x &&
             sum.y * sum.y <= IMU_SENSOR_BIAS_SAMPLES * squares.y &&
             sum.z * sum.z <= IMU_SENSOR_BIAS_SAMPLES * squares.z
    ensures var v := Spread(squares, Mean(sum)); v.x >= 0.0 && v.y >= 0.0 && v.z >= 0.0
  {
    SpreadOfBoundedSum(sum.x, squares.x);
    SpreadOfBoundedSum(sum.y, squares.y);
    SpreadOfBoundedSum(sum.z, squares.z);
  }

  /** The value the firmware takes the square root of for the standard deviation is never
      negative once the bias is found. */
  lemma SpreadNonNegative(gyros: seq<Axis3i>, norms: seq<real>)
    requires |gyros| == |norms|
    ensures var r := Run(Initial, gyros, norms);
            r.gyroBiasVariance.x >= 0.0 && r.gyroBiasVariance.y >= 0.0 && r.gyroBiasVariance.z >= 0.0
  {
    RunFromInitial(gyros, norms);
    var r := Run(Initial, gyros, norms);
    if r.sensorBiasFound {
      var s := gyros[..IMU_SENSOR_BIAS_SAMPLES];
      SquaredSumBound(s);
      SpreadOfBoundedSums(SumOf(s), SumOfSquares(s));
    }
  }

  // ---------------------------------------------------------------------------------------
  // Calibration at rest
  // ---------------------------------------------------------------------------------------

  lemma {:induction false} SumOfConstant(s: seq<Axis3i>, g: Axis3i)
    requires forall i :: 0 <= i < |s| ==> s[i] == g
    ensures SumOf(s) == Axis3i(|s| * g.x, |s| * g.y, |s| * g.z)
  {
    if s != [] {
      SumOfConstant(s[..|s| - 1], g);
    }
  }

  lemma {:induction false} RealSumOfConstant(s: seq<real>, m: real)
    requires forall i :: 0 <= i < |s| ==> s[i] == m
    ensures RealSum(s) == |s| as real * m
  {
    if s != [] {
      RealSumOfConstant(s[..|s| - 1], m);
    }
  }

  /** A vehicle at rest during warm-up, with a constant gyro reading g and a constant
      accelerometer magnitude m: the bias becomes exactly g, the scale exactly m, and the gyro
      output for g afterwards is zero. */
  lemma CalibrationAtRest(gyros: seq<Axis3i>, norms: seq<real>, g: Axis3i, m: real)
    requires |gyros| == |norms| >= IMU_SENSOR_BIAS_SAMPLES
    requires forall i :: 0 <= i < |gyros| ==> gyros[i] == g
    requires forall i :: 0 <= i < |norms| ==> norms[i] == m
    ensures var r := Run(Initial, gyros, norms);
            r.sensorBiasFound && r.gyroBias == Vec3(g.x as real, g.y as real, g.z as real) && r.accScale == m &&
            GyroOut(g, r.gyroBias) == Zero
  {
    RunFromInitial(gyros, norms);
    SumOfConstant(gyros[..IMU_SENSOR_BIAS_SAMPLES], g);
    RealSumOfConstant(norms[..IMU_SENSOR_BIAS_SAMPLES], m);
    BiasCancelsRestingRate(g);
  }
}
