/**
 * The SignalK plugin's estimation loop (src/plugin/index.js): decoding the
 * IMU's 16-bit registers, the complementary attitude filter, the vertical
 * acceleration in the earth frame, and one `collectData` cycle that feeds
 * the three filters.
 *
 * The I2C reads, the 4 ms timer and the delta sent to the server are I/O and
 * not part of this model: a cycle receives the scaled accelerometer and
 * gyroscope readings and the clock value `Date.now()` as parameters, and it
 * returns the three values `publishData` would send.
 */
module SensorPlugin {
  import opened Js
  import opened Quaternions
  import opened Kalman
  import opened KalmanWave
  import opened KalmanWaveAlt
  import opened Aranovskiy
  import opened FilterBank
  import GaussJordan

  // ---------------------------------------------------------------------------
  // Register decoding
  // ---------------------------------------------------------------------------

  /** The values a byte read from the IMU holds. */
  type Byte = b: int | 0 <= b < 256

  /**
   * `convertToInt16(high, low)` (lines 149-152): the big-endian register pair
   * read as a two's-complement 16-bit integer.  For bytes, the source's
   * `(high << 8) | low` is `256 * high + low` (`BitwiseDecoding`).
   */
  function ConvertToInt16(high: Byte, low: Byte): (r: int)
    ensures -0x8000 <= r < 0x8000
    ensures r < 0 <==> high >= 0x80
  {
    var value := high * 256 + low;
    if value >= 0x8000 then value - 0x10000 else value
  }

  /** On bytes, JavaScript's 32-bit `(high << 8) | low` is `256 * high + low`. */
  lemma ShiftOr(high: bv8, low: bv8)
    ensures (((high as bv32) << 8) | (low as bv32)) as int == 256 * (high as int) + (low as int)
  {
  }

  /** `ConvertToInt16` computes the source's expression, written with its 32-bit shift and or. */
  lemma BitwiseDecoding(high: bv8, low: bv8)
    ensures var value := (((high as bv32) << 8) | (low as bv32)) as int;
            ConvertToInt16(high as int, low as int) == if value >= 0x8000 then value - 0x10000 else value
  {
    ShiftOr(high, low);
    DecodeWord(high as int, low as int, (((high as bv32) << 8) | (low as bv32)) as int);
  }

  lemma DecodeWord(high: Byte, low: Byte, value: int)
    requires value == 256 * high + low
    ensures ConvertToInt16(high, low) == if value >= 0x8000 then value - 0x10000 else value
  {
  }

  /** The register pair that holds a 16-bit value: the bytes of its two's-complement word. */
  function Int16Bytes(v: int): (bytes: (Byte, Byte))
    requires -0x8000 <= v < 0x8000
    ensures 256 * bytes.0 + bytes.1 == if v < 0 then v + 0x10000 else v
  {
    var u := if v < 0 then v + 0x10000 else v;
    (u / 256, u % 256)
  }

  /** Every 16-bit value survives encoding and decoding. */
  lemma DecodeEncode(v: int)
    requires -0x8000 <= v < 0x8000
    ensures ConvertToInt16(Int16Bytes(v).0, Int16Bytes(v).1) == v
  {
  }

  /** Every register pair is the encoding of the value it decodes to. */
  lemma EncodeDecode(high: Byte, low: Byte)
    ensures Int16Bytes(ConvertToInt16(high, low)) == (high, low)
  {
  }

  /** The extreme readings: 0x7FFF is the largest value, 0x8000 the smallest, 0xFFFF is -1. */
  lemma DecodeExamples()
    ensures ConvertToInt16(0x7F, 0xFF) == 32767
    ensures ConvertToInt16(0x80, 0x00) == -32768
    ensures ConvertToInt16(0xFF, 0xFF) == -1
    ensures ConvertToInt16(0x00, 0x00) == 0
  {
  }

  // ---------------------------------------------------------------------------
  // Attitude
  // ---------------------------------------------------------------------------

  /** An accelerometer (m/s²) or gyroscope (rad/s) reading, `{x, y, z}`. */
  datatype Vec3 = Vec3(x: real, y: real, z: real)

  const Zero: Vec3 := Vec3(0.0, 0.0, 0.0)

  /** The weight of the gyroscope-propagated attitude in the blend (line 156). */
  const Alpha: real := 0.98

  /** The squared length of the accelerometer reading, the argument of `Math.sqrt` on lines 159-161. */
  function AccelNormSq(accel: Vec3): real
  {
    accel.x * accel.x + accel.y * accel.y + accel.z * accel.z
  }

  /** The attitude the accelerometer alone gives (lines 165-169): roll and pitch from gravity, no yaw. */
  function AccelQuat(accel: Vec3, math: MathFunctions): Quat
    requires math.sqrt(AccelNormSq(accel)) != 0.0
  {
    var norm := math.sqrt(AccelNormSq(accel));
    FromEuler(math.atan2(accel.y, accel.z), math.asin(-accel.x / norm), 0.0, math)
  }

  /** The first-order rotation over `deltaT` at angular rate `gyro` (lines 172-177). */
  function GyroQuat(gyro: Vec3, deltaT: real): (q: Quat)
    ensures q.w == 1.0
  {
    Quat(1.0, gyro.x * deltaT / 2.0, gyro.y * deltaT / 2.0, gyro.z * deltaT / 2.0)
  }

  /** The componentwise blend `Alpha * p + (1 - Alpha) * q` (lines 181-184). */
  function Blend(p: Quat, q: Quat): (r: Quat)
    ensures p == q ==> r == p
  {
    Quat(Alpha * p.w + (1.0 - Alpha) * q.w,
         Alpha * p.x + (1.0 - Alpha) * q.x,
         Alpha * p.y + (1.0 - Alpha) * q.y,
         Alpha * p.z + (1.0 - Alpha) * q.z)
  }

  /**
   * The attitude after `updateAttitude(gyro, accel, deltaT)` (lines 154-186)
   * from the attitude `previous`.
   */
  function NextAttitude(previous: Quat, gyro: Vec3, accel: Vec3, deltaT: real, math: MathFunctions): Quat
  {
    if math.sqrt(AccelNormSq(accel)) == 0.0 then previous
    else
      var accelQuat := AccelQuat(accel, math);
      var propagated := Normalized(Hamilton(accelQuat, GyroQuat(gyro, deltaT)), math.sqrt);
      Normalized(Blend(propagated, accelQuat), math.sqrt)
  }

  /** With `Math.sqrt`, the norm on line 159 is 0 exactly when the reading is the zero vector. */
  lemma ZeroNormIffZeroReading(accel: Vec3, sqrt: real -> real)
    requires IsSqrt(sqrt)
    ensures sqrt(AccelNormSq(accel)) == 0.0 <==> accel == Zero
  {
    var asQuat := Quat(0.0, accel.x, accel.y, accel.z);
    assert NormSq(asQuat) == AccelNormSq(accel);
    NormSqZeroIff(asQuat);
    SqrtZeroIff(AccelNormSq(accel), sqrt);
  }

  /** `Math.sqrt(v)` is 0 exactly when v is. */
  lemma SqrtZeroIff(v: real, sqrt: real -> real)
    requires IsSqrt(sqrt) && v >= 0.0
    ensures sqrt(v) == 0.0 <==> v == 0.0
  {
    var n := sqrt(v);
    assert n * n == v;
    if v == 0.0 {
      SquareZero(n);
    }
  }

  /** A zero reading leaves the attitude as it was (the early return on line 162). */
  lemma ZeroReadingKeepsAttitude(previous: Quat, gyro: Vec3, deltaT: real, math: MathFunctions)
    requires IsSqrt(math.sqrt)
    ensures NextAttitude(previous, gyro, Zero, deltaT, math) == previous
  {
    ZeroNormIffZeroReading(Zero, math.sqrt);
  }

  /**
   * A non-zero reading replaces the attitude outright: the result is the
   * renormalised blend of the gyro-propagated accelerometer attitude with the
   * accelerometer attitude, does not depend on the previous attitude, and is a
   * unit quaternion unless the blend vanishes.
   */
  lemma NonZeroReadingForgetsAttitude(previous: Quat, other: Quat, gyro: Vec3, accel: Vec3, deltaT: real,
                                      math: MathFunctions)
    requires IsSqrt(math.sqrt) && accel != Zero
    ensures math.sqrt(AccelNormSq(accel)) != 0.0
    ensures NextAttitude(previous, gyro, accel, deltaT, math) == NextAttitude(other, gyro, accel, deltaT, math)
    ensures var accelQuat := AccelQuat(accel, math);
            var blended := Blend(Normalized(Hamilton(accelQuat, GyroQuat(gyro, deltaT)), math.sqrt), accelQuat);
            NextAttitude(previous, gyro, accel, deltaT, math) == Normalized(blended, math.sqrt) &&
            (blended != Quat(0.0, 0.0, 0.0, 0.0) ==> NormSq(Normalized(blended, math.sqrt)) == 1.0)
  {
    hide Normalized, Hamilton, Blend, GyroQuat, FromEuler, NormSq;
    ZeroNormIffZeroReading(accel, math.sqrt);
    var accelQuat := AccelQuat(accel, math);
    var blended := Blend(Normalized(Hamilton(accelQuat, GyroQuat(gyro, deltaT)), math.sqrt), accelQuat);
    if blended != Quat(0.0, 0.0, 0.0, 0.0) {
      NormalizedIsUnit(blended, math.sqrt);
    }
  }

  /**
   * `getVerticalAcceleration(accel)` (lines 188-205): the reading rotated by
   * the roll of `attitude`; only the z component of the rotation is returned.
   */
  function VerticalAcceleration(attitude: Quat, accel: Vec3, math: MathFunctions): real
  {
    var roll := ToEuler(attitude, math).roll;
    -accel.y * math.sin(roll) + accel.z * math.cos(roll)
  }

  /** Level, the vertical acceleration is the sensor's own z reading. */
  lemma LevelVerticalAcceleration(accel: Vec3, math: MathFunctions)
    requires FixesOrigin(math)
    ensures VerticalAcceleration(One, accel, math) == accel.z
  {
    LevelRoundTrip(math);
  }

  // ---------------------------------------------------------------------------
  // The plugin object
  // ---------------------------------------------------------------------------

  /** The plugin's estimation state: the three filters, the attitude and the time of the last cycle. */
  class WaveHeaveSensor {
    const waveFilter: KalmanWaveFilter
    const waveAltFilter: KalmanWaveAltFilter
    const freqFilter: AranovskiyFilter
    var attitude: Quaternion
    var lastUpdateTime: int

    /**
     * `initFilters()` (lines 55-81), with `Date.now()` as `now`: the shapes
     * match the indices the filters use, and the frequency guess lies inside
     * its clamp range.
     */
    constructor InitFilters(now: int)
      ensures fresh(waveFilter) && fresh(waveAltFilter) && fresh(freqFilter) && fresh(attitude)
      ensures waveFilter.state == [0.0, 0.0, 0.0, 0.0]
      ensures waveFilter.processNoise == [0.1, 0.1, 0.1, 0.01]
      ensures waveFilter.measurementNoise == [0.1]
      ensures waveFilter.covariance == InitialCovariance(4)
      ensures waveAltFilter.state == [0.0, 0.0, 0.0, 0.0, 0.0]
      ensures waveAltFilter.processNoise == [0.1, 0.1, 0.1, 0.1, 0.01]
      ensures waveAltFilter.measurementNoise == [0.1, 0.1]
      ensures waveAltFilter.covariance == InitialCovariance(5)
      ensures waveFilter.Valid() && waveAltFilter.Valid() && freqFilter.Valid()
      ensures freqFilter.scale == 9.81 && freqFilter.freqGuess == 0.25
      ensures freqFilter.freqLower == 0.05 && freqFilter.freqUpper == 1.0
      ensures freqFilter.frequency == freqFilter.freqGuess
      ensures freqFilter.freqLower <= freqFilter.frequency <= freqFilter.freqUpper
      ensures freqFilter.x1 == 0.0 && freqFilter.x2 == 0.0 && freqFilter.y1 == 0.0 && freqFilter.y2 == 0.0
      ensures freqFilter.phase == 0.0 && freqFilter.amplitude == 0.0
      ensures attitude.Value() == One
      ensures lastUpdateTime == now
    {
      var heave := new KalmanWaveFilter(FilterOptions(Some([0.0, 0.0, 0.0, 0.0]),
                                                      Some([0.1, 0.1, 0.1, 0.01]),
                                                      Some([0.1])));
      var alt := new KalmanWaveAltFilter(FilterOptions(Some([0.0, 0.0, 0.0, 0.0, 0.0]),
                                                       Some([0.1, 0.1, 0.1, 0.1, 0.01]),
                                                       Some([0.1, 0.1])));
      var tracker := new AranovskiyFilter(FrequencyOptions(Some(9.81), Some(0.25), Some(0.05), Some(1.0)));
      var level := new Quaternion.Default();
      waveFilter := heave;
      waveAltFilter := alt;
      freqFilter := tracker;
      attitude := level;
      lastUpdateTime := now;
    }

    /**
     * `updateAttitude(gyro, accel, deltaT)` (lines 154-186): the complementary
     * filter.  A zero-norm reading returns early and keeps the same attitude
     * object; otherwise the attitude becomes a new object holding
     * `NextAttitude`.
     */
    method UpdateAttitude(gyro: Vec3, accel: Vec3, deltaT: real, math: MathFunctions)
      modifies this
      ensures attitude.Value() == NextAttitude(old(attitude.Value()), gyro, accel, deltaT, math)
      ensures math.sqrt(AccelNormSq(accel)) == 0.0 ==> attitude == old(attitude)
      ensures math.sqrt(AccelNormSq(accel)) != 0.0 ==> fresh(attitude)
      ensures lastUpdateTime == old(lastUpdateTime)
    {
      hide Normalized, Hamilton, FromEuler, NormSq;
      var norm := math.sqrt(AccelNormSq(accel));
      if norm == 0.0 {
        return;
      }
      var roll := math.atan2(accel.y, accel.z);
      var pitch := math.asin(-accel.x / norm);
      var accelQuat := Quaternion.FromEulerAngles(roll, pitch, 0.0, math);
      assert accelQuat.Value() == AccelQuat(accel, math);
      var gyroQuat := new Quaternion(1.0, gyro.x * deltaT / 2.0, gyro.y * deltaT / 2.0, gyro.z * deltaT / 2.0);
      assert gyroQuat.Value() == GyroQuat(gyro, deltaT);
      var product := accelQuat.Multiply(gyroQuat);
      attitude := product.Normalize(math.sqrt);
      ghost var propagated := attitude.Value();
      assert propagated == Normalized(Hamilton(AccelQuat(accel, math), GyroQuat(gyro, deltaT)), math.sqrt);
      attitude.w := Alpha * attitude.w + (1.0 - Alpha) * accelQuat.w;
      attitude.x := Alpha * attitude.x + (1.0 - Alpha) * accelQuat.x;
      attitude.y := Alpha * attitude.y + (1.0 - Alpha) * accelQuat.y;
      attitude.z := Alpha * attitude.z + (1.0 - Alpha) * accelQuat.z;
      assert attitude.Value() == Blend(propagated, AccelQuat(accel, math));
      var _ := attitude.Normalize(math.sqrt);
    }

    /**
     * Every division of a `collectData` cycle at time `now` is defined: the
     * filters are ready for the vertical acceleration the new attitude gives.
     */
    predicate CanCollect(accel: Vec3, gyro: Vec3, now: int, math: MathFunctions)
      reads this, attitude, waveFilter, waveAltFilter, freqFilter
    {
      var deltaT := DeltaSeconds(now, lastUpdateTime);
      var vertical := VerticalAcceleration(NextAttitude(attitude.Value(), gyro, accel, deltaT, math), accel, math);
      CanStep(waveFilter, waveAltFilter, freqFilter, vertical, deltaT)
    }

    /**
     * `collectData()` (lines 90-121) with the readings and `Date.now()` given:
     * the time step from the previous cycle, the attitude update, then the
     * three filters on the same vertical acceleration, the 5-state filter
     * seeing the frequency from before the tracker's update.  Returns what is
     * published.
     */
    method CollectData(accel: Vec3, gyro: Vec3, now: int, math: MathFunctions)
      returns (heave: real, heaveAlt: real, frequency: real)
      requires CanCollect(accel, gyro, now, math)
      modifies this, waveFilter, waveAltFilter, freqFilter
      ensures lastUpdateTime == now
      ensures attitude.Value() ==
              NextAttitude(old(attitude.Value()), gyro, accel, DeltaSeconds(now, old(lastUpdateTime)), math)
      ensures Stepped(waveFilter, waveAltFilter, freqFilter, VerticalAcceleration(attitude.Value(), accel, math),
                      DeltaSeconds(now, old(lastUpdateTime)), math)
      ensures |waveFilter.state| == 4 && |waveAltFilter.state| == 5
      ensures heave == waveFilter.state[1] && heaveAlt == waveAltFilter.state[1] && frequency == freqFilter.frequency
    {
      hide PredictedCovariance, Gain, CorrectedState, CorrectedCovariance, PredictedState;
      hide AltPredictedCovariance, AltGainOf, AltCorrectedState, AltCorrectedCovariance, AltPredictedState;
      hide GaussJordan.GaussJordanInverse, AltInnovationCovariance, NextAttitude, VerticalAcceleration;
      var deltaT := DeltaSeconds(now, lastUpdateTime);
      lastUpdateTime := now;
      UpdateAttitude(gyro, accel, deltaT, math);
      var vertical := VerticalAcceleration(attitude.Value(), accel, math);
      heave, heaveAlt, frequency := Step(waveFilter, waveAltFilter, freqFilter, vertical, deltaT, math);
    }
  }
}
