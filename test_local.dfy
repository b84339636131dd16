/**
 * The local monitor (src/test-local.js): it receives attitude samples
 * (roll, pitch, yaw in radians) from a SignalK server, detects a stationary
 * sensor, derives a vertical acceleration from the change of attitude, and
 * feeds it, bounded, to the three filters.
 *
 * The server connection, the subscription and the console output are not
 * part of this model: `ProcessAttitude` receives the sample and the clock
 * value `Date.now()` as parameters and returns what the console line shows.
 */
module LocalMonitor {
  import opened Js
  import opened Kalman
  import opened KalmanWave
  import opened KalmanWaveAlt
  import opened Aranovskiy
  import opened FilterBank
  import GaussJordan

  /** Below this change (radians) in both roll and pitch, a sample counts as still (line 35). */
  const NoiseThreshold: real := 0.001

  /** Still samples in a row after which the sensor is taken as stationary (line 36). */
  const StationaryCountThreshold: nat := 10

  /** The low-pass coefficient of the speed and acceleration estimates (line 155). */
  const Smoothing: real := 0.1

  /** The factor from the estimate to the filters' input (line 166). */
  const Gravity: real := 9.81

  /** The filters' input is kept inside [-AccelerationBound, AccelerationBound] (line 167). */
  const AccelerationBound: real := 2.0

  /** A `navigation.attitude` value, in radians. */
  datatype AttitudeSample = AttitudeSample(roll: real, pitch: real, yaw: real)

  /** `lastAttitude` (lines 42-48): angles in degrees, displacement and speed of the previous sample. */
  datatype AttitudeRecord = AttitudeRecord(
    roll: real,
    pitch: real,
    yaw: real,
    verticalDisplacement: real,
    lastVerticalSpeed: real)

  /** What a call reports on the console: nothing, the stationary line, or the estimates. */
  datatype Outcome =
    | Skipped
    | Stationary(roll: real, pitch: real)
    | Estimated(roll: real, pitch: real, heave: real, heaveAlt: real, frequency: real)

  /** Radians to degrees, `angle * (180 / Math.PI)` (lines 128-129). */
  function Degrees(radians: real): (degrees: real)
    ensures degrees * Pi == radians * 180.0
  {
    radians * (180.0 / Pi)
  }

  /** Both roll and pitch moved less than `NoiseThreshold` since the previous sample (lines 114-117). */
  predicate Still(sample: AttitudeSample, lastRoll: real, lastPitch: real)
  {
    Abs(sample.roll - lastRoll) < NoiseThreshold && Abs(sample.pitch - lastPitch) < NoiseThreshold
  }

  /** The stationary counter after a sample (lines 117-121): one more when still, back to 0 otherwise. */
  function NextStationaryCount(count: nat, sample: AttitudeSample, lastRoll: real, lastPitch: real): (next: nat)
    ensures next == count + 1 <==> Still(sample, lastRoll, lastPitch)
    ensures next == 0 <==> !Still(sample, lastRoll, lastPitch)
  {
    if Still(sample, lastRoll, lastPitch) then count + 1 else 0
  }

  /** `Math.sin(roll) * Math.cos(pitch)` (lines 151-152). */
  function Displacement(sample: AttitudeSample, math: MathFunctions): real
  {
    math.sin(sample.roll) * math.cos(sample.pitch)
  }

  /** The smoothed vertical speed (lines 156-159). */
  function VerticalSpeed(displacement: real, last: AttitudeRecord, deltaT: real): real
    requires deltaT != 0.0
  {
    Smoothing * (displacement - last.verticalDisplacement) / deltaT + (1.0 - Smoothing) * last.lastVerticalSpeed
  }

  /** The smoothed vertical acceleration (lines 162-163). */
  function VerticalAcceleration(speed: real, last: AttitudeRecord, deltaT: real): real
    requires deltaT != 0.0
  {
    Smoothing * (speed - last.lastVerticalSpeed) / deltaT
  }

  /** The value the three filters receive (lines 151-167): the acceleration scaled by `Gravity` and bounded. */
  function FilterInput(sample: AttitudeSample, last: AttitudeRecord, deltaT: real, math: MathFunctions): (input: real)
    requires deltaT != 0.0
    ensures -AccelerationBound <= input <= AccelerationBound
  {
    var speed := VerticalSpeed(Displacement(sample, math), last, deltaT);
    Clamp(-AccelerationBound, AccelerationBound, VerticalAcceleration(speed, last, deltaT) * Gravity)
  }

  /**
   * The speed estimate moves a tenth of the way from the previous speed
   * towards the finite-difference speed of the displacement.
   */
  lemma SpeedTracksDifference(displacement: real, last: AttitudeRecord, deltaT: real)
    requires deltaT != 0.0
    ensures var rate := (displacement - last.verticalDisplacement) / deltaT;
            VerticalSpeed(displacement, last, deltaT) - last.lastVerticalSpeed == Smoothing * (rate - last.lastVerticalSpeed)
  {
    var rate := (displacement - last.verticalDisplacement) / deltaT;
    assert Smoothing * (displacement - last.verticalDisplacement) / deltaT == Smoothing * rate;
  }

  /** A sensor at rest (same displacement, no speed) feeds 0 to the filters. */
  lemma RestFeedsZero(sample: AttitudeSample, last: AttitudeRecord, deltaT: real, math: MathFunctions)
    requires deltaT != 0.0
    requires last.verticalDisplacement == Displacement(sample, math) && last.lastVerticalSpeed == 0.0
    ensures FilterInput(sample, last, deltaT, math) == 0.0
  {
    var speed := VerticalSpeed(Displacement(sample, math), last, deltaT);
    assert speed == 0.0;
    assert VerticalAcceleration(speed, last, deltaT) == 0.0;
  }

  /** The module-level state of the monitor: the three filters and the variables `processAttitude` updates. */
  class Monitor {
    const waveFilter: KalmanWaveFilter
    const waveAltFilter: KalmanWaveAltFilter
    const freqFilter: AranovskiyFilter
    var lastUpdateTime: int
    var stationaryCount: nat
    var lastRoll: real
    var lastPitch: real
    var lastAttitude: AttitudeRecord

    /**
     * The module's initialisation (lines 15-49), with `Date.now()` as `now`:
     * filters with lower process noise and higher measurement noise than the
     * plugin's, and a lower frequency guess.
     */
    constructor (now: int)
      ensures fresh(waveFilter) && fresh(waveAltFilter) && fresh(freqFilter)
      ensures waveFilter.state == [0.0, 0.0, 0.0, 0.0]
      ensures waveFilter.processNoise == [0.01, 0.01, 0.01, 0.001]
      ensures waveFilter.measurementNoise == [0.5]
      ensures waveFilter.covariance == InitialCovariance(4)
      ensures waveAltFilter.state == [0.0, 0.0, 0.0, 0.0, 0.0]
      ensures waveAltFilter.processNoise == [0.01, 0.01, 0.01, 0.01, 0.001]
      ensures waveAltFilter.measurementNoise == [0.5, 0.5]
      ensures waveAltFilter.covariance == InitialCovariance(5)
      ensures waveFilter.Valid() && waveAltFilter.Valid() && freqFilter.Valid()
      ensures freqFilter.scale == 9.81 && freqFilter.freqGuess == 0.1
      ensures freqFilter.freqLower == 0.05 && freqFilter.freqUpper == 1.0
      ensures freqFilter.frequency == freqFilter.freqGuess
      ensures freqFilter.freqLower <= freqFilter.frequency <= freqFilter.freqUpper
      ensures freqFilter.x1 == 0.0 && freqFilter.x2 == 0.0 && freqFilter.y1 == 0.0 && freqFilter.y2 == 0.0
      ensures freqFilter.phase == 0.0 && freqFilter.amplitude == 0.0
      ensures stationaryCount == 0 && lastRoll == 0.0 && lastPitch == 0.0
      ensures lastAttitude == AttitudeRecord(0.0, 0.0, 0.0, 0.0, 0.0)
      ensures lastUpdateTime == now
    {
      var heave := new KalmanWaveFilter(FilterOptions(Some([0.0, 0.0, 0.0, 0.0]),
                                                      Some([0.01, 0.01, 0.01, 0.001]),
                                                      Some([0.5])));
      var alt := new KalmanWaveAltFilter(FilterOptions(Some([0.0, 0.0, 0.0, 0.0, 0.0]),
                                                       Some([0.01, 0.01, 0.01, 0.01, 0.001]),
                                                       Some([0.5, 0.5])));
      var tracker := new AranovskiyFilter(FrequencyOptions(Some(9.81), Some(0.1), Some(0.05), Some(1.0)));
      waveFilter := heave;
      waveAltFilter := alt;
      freqFilter := tracker;
      stationaryCount := 0;
      lastRoll := 0.0;
      lastPitch := 0.0;
      lastAttitude := AttitudeRecord(0.0, 0.0, 0.0, 0.0, 0.0);
      lastUpdateTime := now;
    }

    /**
     * Every division of `processAttitude` at time `now` is defined: when the
     * call reaches the filters, they are ready for the input it computes.
     */
    predicate CanProcess(sample: AttitudeSample, now: int, math: MathFunctions)
      reads this, waveFilter, waveAltFilter, freqFilter
    {
      var deltaT := DeltaSeconds(now, lastUpdateTime);
      deltaT > 0.0 && NextStationaryCount(stationaryCount, sample, lastRoll, lastPitch) < StationaryCountThreshold ==>
        CanStep(waveFilter, waveAltFilter, freqFilter, FilterInput(sample, lastAttitude, deltaT, math), deltaT)
    }

    /**
     * `processAttitude(attitude)` (lines 106-194) with `Date.now()` given as
     * `now`.  A call in which no time has passed changes nothing.  Otherwise
     * the clock, the counter and the previous angles advance; a stationary
     * sensor resets the motion record and leaves the filters alone; a moving
     * one steps the three filters on the bounded input, the 5-state filter
     * seeing the frequency from before the tracker's update.
     */
    method ProcessAttitude(sample: AttitudeSample, now: int, math: MathFunctions) returns (outcome: Outcome)
      requires CanProcess(sample, now, math)
      modifies this, waveFilter, waveAltFilter, freqFilter
      ensures now <= old(lastUpdateTime) ==>
                outcome == Skipped && unchanged(this) && unchanged(waveFilter, waveAltFilter, freqFilter)
      ensures now > old(lastUpdateTime) ==>
                lastUpdateTime == now &&
                stationaryCount == NextStationaryCount(old(stationaryCount), sample, old(lastRoll), old(lastPitch)) &&
                lastRoll == sample.roll && lastPitch == sample.pitch
      ensures now > old(lastUpdateTime) && stationaryCount >= StationaryCountThreshold ==>
                outcome == Stationary(Degrees(sample.roll), Degrees(sample.pitch)) &&
                lastAttitude == AttitudeRecord(Degrees(sample.roll), Degrees(sample.pitch), Degrees(sample.yaw), 0.0, 0.0) &&
                unchanged(waveFilter, waveAltFilter, freqFilter)
      ensures now > old(lastUpdateTime) && stationaryCount < StationaryCountThreshold ==>
                var deltaT := DeltaSeconds(now, old(lastUpdateTime));
                var displacement := Displacement(sample, math);
                lastAttitude == AttitudeRecord(Degrees(sample.roll), Degrees(sample.pitch), Degrees(sample.yaw),
                                               displacement, VerticalSpeed(displacement, old(lastAttitude), deltaT))
      ensures now > old(lastUpdateTime) && stationaryCount < StationaryCountThreshold ==>
                Stepped(waveFilter, waveAltFilter, freqFilter,
                        FilterInput(sample, old(lastAttitude), DeltaSeconds(now, old(lastUpdateTime)), math),
                        DeltaSeconds(now, old(lastUpdateTime)), math)
      ensures now > old(lastUpdateTime) && stationaryCount < StationaryCountThreshold ==>
                |waveFilter.state| == 4 && |waveAltFilter.state| == 5
      ensures now > old(lastUpdateTime) && stationaryCount < StationaryCountThreshold ==>
                outcome == Estimated(Degrees(sample.roll), Degrees(sample.pitch),
                                     waveFilter.state[1], waveAltFilter.state[1], freqFilter.frequency)
    {
      hide PredictedCovariance, Gain, CorrectedState, CorrectedCovariance, PredictedState;
      hide AltPredictedCovariance, AltGainOf, AltCorrectedState, AltCorrectedCovariance, AltPredictedState;
      hide GaussJordan.GaussJordanInverse, AltInnovationCovariance;
      hide Response, Energy, Clamp, VerticalSpeed, VerticalAcceleration, Displacement, Degrees;
      var deltaT := DeltaSeconds(now, lastUpdateTime);
      if deltaT <= 0.0 {
        return Skipped;
      }
      ghost var count, last := NextStationaryCount(stationaryCount, sample, lastRoll, lastPitch), lastAttitude;
      lastUpdateTime := now;

      var rollDiff := Abs(sample.roll - lastRoll);
      var pitchDiff := Abs(sample.pitch - lastPitch);
      if rollDiff < NoiseThreshold && pitchDiff < NoiseThreshold {
        stationaryCount := stationaryCount + 1;
      } else {
        stationaryCount := 0;
      }

      lastRoll := sample.roll;
      lastPitch := sample.pitch;

      var roll := Degrees(sample.roll);
      var pitch := Degrees(sample.pitch);

      if stationaryCount >= StationaryCountThreshold {
        lastAttitude := AttitudeRecord(roll, pitch, Degrees(sample.yaw), 0.0, 0.0);
        return Stationary(roll, pitch);
      }

      assert stationaryCount == count < StationaryCountThreshold;
      var verticalDisplacement := Displacement(sample, math);
      var verticalSpeed := VerticalSpeed(verticalDisplacement, lastAttitude, deltaT);
      var verticalAcceleration := VerticalAcceleration(verticalSpeed, lastAttitude, deltaT);
      var boundedAcceleration := Clamp(-AccelerationBound, AccelerationBound, verticalAcceleration * Gravity);

      var heave, heaveAlt, frequency := Step(waveFilter, waveAltFilter, freqFilter, boundedAcceleration, deltaT, math);

      lastAttitude := AttitudeRecord(roll, pitch, Degrees(sample.yaw), verticalDisplacement, verticalSpeed);
      outcome := Estimated(roll, pitch, heave, heaveAlt, frequency);
    }
  }
}
