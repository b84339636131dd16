/**
 * One estimation step over the three filters, as both drivers perform it
 * (`collectData` in src/plugin/index.js, lines 108-117, and
 * `processAttitude` in src/test-local.js, lines 169-176): the 4-state heave
 * filter, then the 5-state filter fed with the frequency tracker's current
 * estimate, then the frequency tracker, all with the same vertical
 * acceleration and time step.
 */
module FilterBank {
  import opened Js
  import opened Matrices
  import opened GaussJordan
  import opened Kalman
  import opened KalmanWave
  import opened KalmanWaveAlt
  import opened Aranovskiy

  /** The 4-state filter has the shapes its methods index into, and its innovation covariance S is invertible. */
  predicate HeaveReady(heave: KalmanWaveFilter, deltaT: real)
    reads heave
  {
    heave.Valid() && |heave.state| == 4 && |heave.processNoise| >= 4 && |heave.measurementNoise| >= 1 &&
    PredictedCovariance(heave.covariance, heave.processNoise, deltaT).Get(0, 0) + heave.measurementNoise[0] != 0.0
  }

  /** The 5-state filter has the shapes its methods index into, and its S is invertible for this kHat. */
  predicate AltReady(alt: KalmanWaveAltFilter, kHat: real, deltaT: real)
    reads alt
  {
    alt.Valid() && |alt.state| == 5 && |alt.processNoise| >= 5 && |alt.measurementNoise| >= 2 &&
    GaussJordanInverse(AltInnovationCovariance(AltPredictedCovariance(alt.covariance, alt.processNoise, kHat, deltaT),
                                               alt.measurementNoise[0], alt.measurementNoise[1])).Ok?
  }

  /** The tracker divides by the time step and by the squared magnitude of its sample. */
  predicate TrackerReady(tracker: AranovskiyFilter, acceleration: real, deltaT: real)
    reads tracker
  {
    tracker.Valid() && deltaT != 0.0 && tracker.Excited(acceleration, deltaT)
  }

  /** Every division of the step is defined. */
  predicate CanStep(heave: KalmanWaveFilter, alt: KalmanWaveAltFilter, tracker: AranovskiyFilter,
                    acceleration: real, deltaT: real)
    reads heave, alt, tracker
  {
    HeaveReady(heave, deltaT) && AltReady(alt, tracker.frequency, deltaT) && TrackerReady(tracker, acceleration, deltaT)
  }

  /** The 4-state filter was ready and ran predict and correct on `acceleration`. */
  twostate predicate HeaveStepped(heave: KalmanWaveFilter, acceleration: real, deltaT: real)
    reads heave
  {
    old(HeaveReady(heave, deltaT)) &&
    var p := PredictedCovariance(old(heave.covariance), heave.processNoise, deltaT);
    var k := Gain(p, heave.measurementNoise[0]);
    heave.state == CorrectedState(PredictedState(old(heave.state), acceleration, deltaT), k) &&
    heave.covariance == CorrectedCovariance(p, k)
  }

  /** The 5-state filter was ready and ran predict with `kHat` and correct on `acceleration`. */
  twostate predicate AltStepped(alt: KalmanWaveAltFilter, kHat: real, acceleration: real, deltaT: real)
    reads alt
  {
    old(AltReady(alt, kHat, deltaT)) &&
    var p := AltPredictedCovariance(old(alt.covariance), alt.processNoise, kHat, deltaT);
    var k := AltGainOf(p, alt.measurementNoise[0], alt.measurementNoise[1]);
    alt.state == AltCorrectedState(AltPredictedState(old(alt.state), kHat, deltaT), k, acceleration) &&
    alt.covariance == AltCorrectedCovariance(p, k)
  }

  /** The three filters stepped on `acceleration`; the 5-state filter used the tracker's frequency from before. */
  twostate predicate Stepped(heave: KalmanWaveFilter, alt: KalmanWaveAltFilter, tracker: AranovskiyFilter,
                             acceleration: real, deltaT: real, math: MathFunctions)
    reads heave, alt, tracker
  {
    HeaveStepped(heave, acceleration, deltaT) &&
    AltStepped(alt, old(tracker.frequency), acceleration, deltaT) &&
    tracker.Advanced(acceleration, deltaT, math)
  }

  /**
   * The three `update` calls in the drivers' order; returns the heave, the
   * alternate heave and the frequency they report.  The 5-state filter gets
   * the frequency estimate from before the tracker's update.
   */
  method Step(heave: KalmanWaveFilter, alt: KalmanWaveAltFilter, tracker: AranovskiyFilter,
              acceleration: real, deltaT: real, math: MathFunctions)
    returns (height: real, heightAlt: real, frequency: real)
    requires CanStep(heave, alt, tracker, acceleration, deltaT)
    modifies heave, alt, tracker
    ensures Stepped(heave, alt, tracker, acceleration, deltaT, math)
    ensures |heave.state| == 4 && |alt.state| == 5
    ensures height == heave.state[1] && heightAlt == alt.state[1] && frequency == tracker.frequency
  {
    hide PredictedCovariance, Gain, CorrectedState, CorrectedCovariance, PredictedState;
    hide AltPredictedCovariance, AltGainOf, AltCorrectedState, AltCorrectedCovariance, AltPredictedState;
    hide GaussJordanInverse, AltInnovationCovariance;
    height := heave.Update(acceleration, deltaT);
    heightAlt := alt.Update(acceleration, tracker.frequency, deltaT);
    frequency := tracker.Update(acceleration, deltaT, math);
  }
}
