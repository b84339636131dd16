# Wave heave sensor: a Dafny model

This project models the signal-processing core of a SignalK plugin that
estimates the heave of a boat (its vertical motion on the waves), the
dominant wave frequency and, in a local monitor, an estimate built from the
boat's roll and pitch.

The core has three parts:

- A small linear-algebra library. `Matrix` is a row-major matrix with
  `identity`, `get`, `set`, `multiply`, `transpose`, `add`, `subtract`,
  `scale` and a Gauss-Jordan `inverse`.
- The estimators:
  - `Quaternion`, which holds the attitude.
  - A scalar `KalmanFilter`.
  - Two wave Kalman filters. The 4-state `KalmanWaveFilter` (displacement
    integral, heave, vertical speed, acceleration bias) pins the
    displacement integral to 0. The 5-state `KalmanWaveAltFilter` also
    observes the vertical acceleration. Its prediction adds kHat times the
    predicted heave to the acceleration (a' = a + kHat·z'), where kHat is
    the tracker's current frequency.
  - `AranovskiyFilter`, the frequency tracker.
- Two drivers:
  - The plugin's `collectData` cycle. It updates the attitude with a
    complementary filter over the accelerometer and gyroscope, rotates the
    reading to the vertical, and feeds the three filters.
  - The local monitor's `processAttitude`. It guards against a clock that
    did not move, detects a stationary sensor, derives a bounded
    acceleration from roll and pitch, and feeds the same three filters.

## How the model is built

JavaScript numbers become Dafny `real`s. The model is exact arithmetic: no
rounding, no NaN, no Infinity.

- `Math.sqrt`, `Math.sin`, `Math.cos`, `Math.atan2` and `Math.asin` are
  parameters, bundled in `Js.MathFunctions`.
- Properties that need the square root are stated under `IsSqrt(sqrt)`: the
  result is non-negative and squares back to its argument.
- Properties that need the trigonometric functions at 0 are stated under
  `FixesOrigin(math)`: sin 0 = 0, cos 0 = 1, atan2(0, 1) = 0, asin 0 = 0.
- The clock (`Date.now()`) is a parameter `now`.

Each source operation has two halves:

- A specification function that describes its result.
- Where the source loops or updates an object, a method that does the same
  work the way the source does. The method is proved to produce the
  specification function's value.

The parts map to Dafny as follows:

- `Matrix` is a value (`Matrices.Matrix`). Every operation fills a local
  `array<real>` buffer in the source's loop order.
- `inverse` works in place on one augmented buffer (`GaussJordan.Inverse`).
- The quaternion and the filters are classes whose methods update their
  fields in place.
- The plugin is the class `SensorPlugin.WaveHeaveSensor`. The local monitor
  is the class `LocalMonitor.Monitor`.
- Both drivers step their three filters in the same order through
  `FilterBank.Step`:
  1. the 4-state filter;
  2. the 5-state filter, given the frequency read before the tracker runs;
  3. the frequency tracker.

## Model

The functions below only compute a value and carry no contract of their own.
Each is the specification half of the rows that name it, whose contracts state
what it means:

- `Quaternions.Hamilton` (`multiply`, src/plugin/wave-sensor-algorithms.js:206-213): `OneIsUnit`, `ConjProduct`, `Quaternion.Multiply`.
- `Quaternions.Normalized` (`normalize`, src/plugin/wave-sensor-algorithms.js:192-204): `NormalizeZero`, `NormalizedIsUnit`, `NormalizeIdempotent`, `Quaternion.Normalize`.
- `Quaternions.ToEuler` and `Quaternions.FromEuler` (`toEuler`, `fromEuler`, src/plugin/wave-sensor-algorithms.js:219-247): `LevelRoundTrip`, `Quaternion.FromEulerAngles`.
- `SensorPlugin.AccelQuat` and `SensorPlugin.NextAttitude` (`updateAttitude`, src/plugin/index.js:154-186): `ZeroReadingKeepsAttitude`, `NonZeroReadingForgetsAttitude`, `WaveHeaveSensor.UpdateAttitude`.
- `SensorPlugin.VerticalAcceleration` (`getVerticalAcceleration`, src/plugin/index.js:188-205): `LevelVerticalAcceleration`, `WaveHeaveSensor.CollectData`.
- `Aranovskiy.FrequencyStep` (the correction, src/plugin/wave-sensor-algorithms.js:347-352): `StepVanishesAfterShift`; `Aranovskiy.FrequencyAfter`: `FrequencyFrozen`.
- `Kalman.ScalarGain`, `Kalman.CorrectedVariance` and `Kalman.ScalarCorrected` (the base `updateStep`, src/plugin/wave-sensor-algorithms.js:294-303): `ScalarGainBounds`, `ScalarVarianceShrinks`, `ScalarCorrectedBetween`.
- `LocalMonitor.Displacement`, `LocalMonitor.VerticalSpeed` and `LocalMonitor.VerticalAcceleration` (src/test-local.js:151-163): `FilterInput`, `SpeedTracksDifference`, `RestFeedsZero`.
- `Js.Abs`, `Js.Min` and `Js.Max` (`Math.abs`, `Math.min`, `Math.max`): `PivotIsFirstMax`, `Clamp`.

| member | source | states |
|---|---|---|
| Matrices.Matrix.Set | src/plugin/wave-sensor-algorithms.js:21-23 | the entry (i, j) becomes v and the shape is kept |
| Matrices.SetFrame | src/plugin/wave-sensor-algorithms.js:21-23 | `set` changes no entry other than (i, j) |
| Matrices.Zeros | src/plugin/wave-sensor-algorithms.js:3-7 | a new rows x cols matrix has every entry 0 |
| Matrices.IdentityOf | src/plugin/wave-sensor-algorithms.js:9-15 | the identity has 1 on the diagonal and 0 elsewhere |
| Matrices.Identity | src/plugin/wave-sensor-algorithms.js:9-15 | the loop that writes 1 on the diagonal of a zero buffer builds the identity |
| Matrices.Product | src/plugin/wave-sensor-algorithms.js:25-43 | the product is rows x other.cols, and entry (i, j) is the sum over k of a(i, k)·b(k, j) |
| Matrices.RowTimesColumn | src/plugin/wave-sensor-algorithms.js:34-37 | the innermost accumulation loop computes that sum |
| Matrices.Multiply | src/plugin/wave-sensor-algorithms.js:25-43 | fails exactly when this.cols differs from other.rows, and otherwise returns the product |
| Matrices.Transposed | src/plugin/wave-sensor-algorithms.js:45-55 | the transpose is cols x rows with entry (i, j) equal to m(j, i) |
| Matrices.Transpose | src/plugin/wave-sensor-algorithms.js:45-55 | the buffer loop computes the transpose |
| Matrices.TransposeTwice | src/plugin/wave-sensor-algorithms.js:45-55 | transposing twice gives back the original matrix |
| Matrices.TransposeProduct | src/plugin/wave-sensor-algorithms.js:25-55 | the transpose of A·B is Bᵀ·Aᵀ |
| Matrices.ProductAssociative | src/plugin/wave-sensor-algorithms.js:25-43 | (A·B)·C equals A·(B·C), which the filters rely on when they chain products |
| Matrices.Sum | src/plugin/wave-sensor-algorithms.js:57-71 | the sum is taken entry by entry and keeps the shape |
| Matrices.Add | src/plugin/wave-sensor-algorithms.js:57-71 | fails exactly on a row or column mismatch, and otherwise returns the entrywise sum |
| Matrices.Difference | src/plugin/wave-sensor-algorithms.js:73-87 | the difference is taken entry by entry and keeps the shape |
| Matrices.Subtract | src/plugin/wave-sensor-algorithms.js:73-87 | fails exactly on a row or column mismatch, and otherwise returns the entrywise difference |
| Matrices.Scaled | src/plugin/wave-sensor-algorithms.js:89-99 | every entry is multiplied by the factor and the shape is kept |
| Matrices.Scale | src/plugin/wave-sensor-algorithms.js:89-99 | the loop computes the scaled matrix and never fails |
| Matrices.ScaleRowInto | src/plugin/wave-sensor-algorithms.js:93-95 | the inner loop writes row i scaled and leaves the other rows alone |
| Matrices.SymmetricIffTransposeFixed | src/plugin/wave-sensor-algorithms.js:45-55 | a matrix is symmetric exactly when it equals its transpose |
| Matrices.CongruenceSymmetric | src/plugin/wave-sensor-algorithms.js:425-428 | F·P·Fᵀ is symmetric whenever P is |
| Matrices.SumSymmetric | src/plugin/wave-sensor-algorithms.js:57-71 | the sum of two symmetric matrices is symmetric |
| GaussJordan.Augmented | src/plugin/wave-sensor-algorithms.js:106-115 | [A \| I] holds A on the left and the identity on the right |
| GaussJordan.FillAugmented | src/plugin/wave-sensor-algorithms.js:106-115 | the filling loops build [A \| I] in the buffer |
| GaussJordan.PivotFrom | src/plugin/wave-sensor-algorithms.js:120-127 | the search from row j, with the row kept so far, ends on a row of the matrix: the kept row or one from row j on |
| GaussJordan.Pivot | src/plugin/wave-sensor-algorithms.js:120-127 | the pivot row for column i is row i or a row below it, never a row already reduced |
| GaussJordan.PivotIsFirstMax | src/plugin/wave-sensor-algorithms.js:120-127 | the chosen pivot row has the largest absolute value in column i from row i down, and it is the first such row, because the comparison is strict |
| GaussJordan.FindPivot | src/plugin/wave-sensor-algorithms.js:120-127 | the search loop returns that pivot row |
| GaussJordan.PivotZeroIffColumnZero | src/plugin/wave-sensor-algorithms.js:120-136 | after the swap the pivot is 0 exactly when column i is 0 from row i down |
| GaussJordan.SwapRowsFrom | src/plugin/wave-sensor-algorithms.js:131-135 | the row exchange keeps the shape |
| GaussJordan.SwapRowsFromEntries | src/plugin/wave-sensor-algorithms.js:131-135 | rows i and p trade their entries from column j on, and every other entry is kept |
| GaussJordan.SwapRows | src/plugin/wave-sensor-algorithms.js:131-135 | the buffer loop performs that exchange |
| GaussJordan.SubtractRowFrom | src/plugin/wave-sensor-algorithms.js:141-147 | subtracting a multiple of one row from another, from column k on, keeps the shape; `SubtractRowFromEntries` gives every entry |
| GaussJordan.SubtractRowFromEntries | src/plugin/wave-sensor-algorithms.js:141-147 | the row loses factor times the source row from column k on, and nothing else changes |
| GaussJordan.SubtractRow | src/plugin/wave-sensor-algorithms.js:141-147 | the buffer loop performs that subtraction |
| GaussJordan.DivideRowFrom | src/plugin/wave-sensor-algorithms.js:165-168 | dividing row i by a nonzero factor, from column j on, keeps the shape; `DivideRowFromEntries` gives every entry |
| GaussJordan.DivideRowFromEntries | src/plugin/wave-sensor-algorithms.js:165-168 | row i is divided by the factor from column j on, and nothing else changes |
| GaussJordan.DivideRow | src/plugin/wave-sensor-algorithms.js:165-168 | the buffer loop performs that division |
| GaussJordan.EliminateFrom | src/plugin/wave-sensor-algorithms.js:139-148 | clearing column i below the pivot keeps the shape, and is defined only with a nonzero pivot while rows remain below it |
| GaussJordan.Eliminate | src/plugin/wave-sensor-algorithms.js:139-148 | the rows below the pivot lose a multiple of the pivot row, as EliminateFrom describes |
| GaussJordan.ForwardStep | src/plugin/wave-sensor-algorithms.js:118-149 | one pass does the pivot search, the row exchange and the elimination, and reports a zero pivot with rows below it |
| GaussJordan.Forward | src/plugin/wave-sensor-algorithms.js:118-149 | the elimination keeps the shape and can fail only with ZeroPivot |
| GaussJordan.ForwardPhase | src/plugin/wave-sensor-algorithms.js:118-149 | the buffer loop computes Forward |
| GaussJordan.SubstituteFrom | src/plugin/wave-sensor-algorithms.js:153-162 | back substitution on row i with the rows after it keeps the shape |
| GaussJordan.Substitute | src/plugin/wave-sensor-algorithms.js:153-162 | row i loses multiples of the rows after it, as SubstituteFrom describes |
| GaussJordan.BackwardStep | src/plugin/wave-sensor-algorithms.js:152-169 | one pass back-substitutes and normalises row i, and reports a zero diagonal entry |
| GaussJordan.Backward | src/plugin/wave-sensor-algorithms.js:152-169 | back substitution keeps the shape and can fail only with ZeroPivot |
| GaussJordan.BackwardPhase | src/plugin/wave-sensor-algorithms.js:152-169 | the buffer loop computes Backward |
| GaussJordan.RightHalf | src/plugin/wave-sensor-algorithms.js:171-177 | the result is the n x n right half of the augmented matrix |
| GaussJordan.Extract | src/plugin/wave-sensor-algorithms.js:171-177 | the copying loop returns that right half |
| GaussJordan.GaussJordanInverse | src/plugin/wave-sensor-algorithms.js:101-180 | a successful result is n x n |
| GaussJordan.InverseShape | src/plugin/wave-sensor-algorithms.js:101-104 | fails with NotSquare exactly for a non-square matrix, and otherwise fails only with ZeroPivot or returns an n x n matrix |
| GaussJordan.InverseOneByOne | src/plugin/wave-sensor-algorithms.js:101-180 | [a] inverts to [1/a] when a is not 0, and gives ZeroPivot when a is 0 |
| GaussJordan.Inverse | src/plugin/wave-sensor-algorithms.js:101-180 | the in-place buffer algorithm computes GaussJordanInverse |
| Quaternions.NormSqZeroIff | src/plugin/wave-sensor-algorithms.js:193-196 | the squared norm is non-negative and is 0 exactly for the zero quaternion |
| Quaternions.OneIsUnit | src/plugin/wave-sensor-algorithms.js:185-213 | the default quaternion (1, 0, 0, 0) is a two-sided unit of `multiply` |
| Quaternions.Conj | src/plugin/wave-sensor-algorithms.js:215-217 | the conjugate has the same squared norm as the quaternion |
| Quaternions.ConjInvolution | src/plugin/wave-sensor-algorithms.js:215-217 | `conjugate` keeps w, negates x, y and z, and applying it twice gives back q |
| Quaternions.ConjProduct | src/plugin/wave-sensor-algorithms.js:206-217 | q times its conjugate, on either side, is the real quaternion holding the squared norm |
| Quaternions.NormalizeZero | src/plugin/wave-sensor-algorithms.js:192-196 | normalising the zero quaternion leaves it unchanged |
| Quaternions.NormalizedIsUnit | src/plugin/wave-sensor-algorithms.js:192-204 | a nonzero quaternion normalises to squared norm 1 |
| Quaternions.NormalizeIdempotent | src/plugin/wave-sensor-algorithms.js:192-204 | normalising twice is the same as normalising once |
| Quaternions.LevelRoundTrip | src/plugin/wave-sensor-algorithms.js:219-247 | the zero angles give the default quaternion, and the default quaternion gives back the zero angles |
| Quaternions.Quaternion.constructor | src/plugin/wave-sensor-algorithms.js:185-190 | the new object holds (w, x, y, z) |
| Quaternions.Quaternion.Default | src/plugin/wave-sensor-algorithms.js:185-190 | the constructor defaults give (1, 0, 0, 0) |
| Quaternions.Quaternion.Normalize | src/plugin/wave-sensor-algorithms.js:192-204 | the object is divided by its norm in place unless the norm is 0, and the same object is returned |
| Quaternions.Quaternion.Multiply | src/plugin/wave-sensor-algorithms.js:206-213 | a fresh object holds the Hamilton product |
| Quaternions.Quaternion.Conjugate | src/plugin/wave-sensor-algorithms.js:215-217 | a fresh object holds the conjugate |
| Quaternions.Quaternion.FromEulerAngles | src/plugin/wave-sensor-algorithms.js:233-247 | a fresh object holds the quaternion of the given angles |
| Kalman.InitialCovariance | src/plugin/wave-sensor-algorithms.js:257-261 | the initial covariance is n x n, with 1000 on the diagonal and 0 off it |
| Kalman.NewCovariance | src/plugin/wave-sensor-algorithms.js:257-261 | the identity-then-overwrite loop builds that covariance |
| Kalman.DiagonalInflated | src/plugin/wave-sensor-algorithms.js:280-286 | base `predict` adds processNoise[i]·dt to diagonal entry i and keeps every off-diagonal entry |
| Kalman.DiagonalInflatedIsNoiseSum | src/plugin/wave-sensor-algorithms.js:280-286 | the inflated covariance is P + diag(q·dt) |
| Kalman.DiagonalInflatedSymmetric | src/plugin/wave-sensor-algorithms.js:280-286 | base `predict` keeps a symmetric covariance symmetric |
| Kalman.NoiseCovariance | src/plugin/wave-sensor-algorithms.js:422-425 | the wave filters' Q is diag(q·dt) |
| Kalman.ProcessNoiseMatrix | src/plugin/wave-sensor-algorithms.js:422-425 | the identity-then-overwrite loop builds Q |
| Kalman.AddColumn | src/plugin/wave-sensor-algorithms.js:453-455 | the state loop adds column u to the state entry by entry |
| Kalman.ScalarGainBounds | src/plugin/wave-sensor-algorithms.js:294-296 | with P00 ≥ 0 and R0 > 0 the gain lies in [0, 1) |
| Kalman.ScalarVarianceShrinks | src/plugin/wave-sensor-algorithms.js:303 | with P00 ≥ 0 and R0 > 0 the new P00 = (1 − K)·P00 lies in [0, P00] |
| Kalman.ScalarCorrectedBetween | src/plugin/wave-sensor-algorithms.js:299-300 | with P00 ≥ 0 and R0 > 0 the new state[0] lies between the old state[0] and the measurement |
| Kalman.CorrectedBetween | src/plugin/wave-sensor-algorithms.js:299-300 | for any gain in [0, 1] the corrected value lies between the old value and the measurement |
| Kalman.CorrectionSubtracts | src/plugin/wave-sensor-algorithms.js:458-459 | (I − K·H)·P equals P − K·(H·P) |
| Kalman.KalmanFilter.constructor | src/plugin/wave-sensor-algorithms.js:252-262 | a missing option becomes an empty sequence, and the covariance is the initial n x n one for the state length n |
| Kalman.KalmanFilter.Predict | src/plugin/wave-sensor-algorithms.js:274-287 | the state is kept and the covariance becomes the diagonally inflated one |
| Kalman.KalmanFilter.UpdateStep | src/plugin/wave-sensor-algorithms.js:289-304 | only state[0] and P00 change: to the scalar-gain correction and to (1 − K)·P00 |
| Kalman.KalmanFilter.Update | src/plugin/wave-sensor-algorithms.js:264-272 | predict, then correct, then return the new state[0] |
| KalmanWave.Transition | src/plugin/wave-sensor-algorithms.js:391-406 | F is 4 x 4 |
| KalmanWave.TransitionUnitUpperTriangular | src/plugin/wave-sensor-algorithms.js:391-406 | F is upper triangular with a unit diagonal |
| KalmanWave.Control | src/plugin/wave-sensor-algorithms.js:409-413 | B is 4 x 1 |
| KalmanWave.Observation | src/plugin/wave-sensor-algorithms.js:437-438 | H is 1 x 4 |
| KalmanWave.Propagated | src/plugin/wave-sensor-algorithms.js:416-420 | F·s + b·a has 4 components for any 4 x 4 F and 4 x 1 b; `PropagatedComponents` gives each one as its row of F times s plus b(i)·a |
| KalmanWave.PredictedState | src/plugin/wave-sensor-algorithms.js:416-420 | the predicted state F·s + B·a has 4 components |
| KalmanWave.PredictedStateClosedForm | src/plugin/wave-sensor-algorithms.js:389-420 | the bias is kept, and a − bias is integrated once into the speed, twice into the heave and three times into the displacement integral |
| KalmanWave.PredictedCovariance | src/plugin/wave-sensor-algorithms.js:422-429 | F·P·Fᵀ + diag(q·dt) is 4 x 4 |
| KalmanWave.PredictedCovarianceSymmetric | src/plugin/wave-sensor-algorithms.js:422-429 | prediction keeps a symmetric covariance symmetric |
| KalmanWave.InnovationCovariance | src/plugin/wave-sensor-algorithms.js:441-445 | S = H·P·Hᵀ + [R0] is 1 x 1 |
| KalmanWave.InnovationCovarianceScalar | src/plugin/wave-sensor-algorithms.js:441-445 | S = H·P·Hᵀ + R is the 1 x 1 matrix [P00 + R0] |
| KalmanWave.Gain | src/plugin/wave-sensor-algorithms.js:446 | K is 4 x 1; it requires P00 + R0 ≠ 0, the one entry of the S the source inverts |
| KalmanWave.GainIsProduct | src/plugin/wave-sensor-algorithms.js:445-446 | P·Hᵀ·[1/(P00 + R0)] is the gain, so the 1 x 1 inverse of S is all the filter needs |
| KalmanWave.GainFirstIsScalarGain | src/plugin/wave-sensor-algorithms.js:445-446 | the gain on the observed component is the base filter's P00 / (P00 + R0), so it lies in [0, 1) when P00 ≥ 0 and R0 > 0 |
| KalmanWave.CorrectedState | src/plugin/wave-sensor-algorithms.js:448-455 | the corrected state s + K·[0 − s0] has 4 components |
| KalmanWave.CorrectedStateClosedForm | src/plugin/wave-sensor-algorithms.js:448-455 | each component moves by K(i)·(0 − s0) |
| KalmanWave.CorrectedFirstIsScalar | src/plugin/wave-sensor-algorithms.js:448-455 | the corrected displacement integral is the scalar correction toward the measurement 0 |
| KalmanWave.CorrectedCovariance | src/plugin/wave-sensor-algorithms.js:458-459 | (I − K·H)·P is 4 x 4 |
| KalmanWave.CorrectedCovarianceClosedForm | src/plugin/wave-sensor-algorithms.js:458-459 | the new entry (i, j) is P(i, j) − K(i)·P(0, j) |
| KalmanWave.CorrectedVarianceIsScalar | src/plugin/wave-sensor-algorithms.js:458-459 | the new P00 is (1 − K0)·P00, as in the base filter |
| KalmanWave.CorrectedCovarianceSymmetric | src/plugin/wave-sensor-algorithms.js:458-459 | the correction keeps a symmetric covariance symmetric |
| KalmanWave.CorrectedVariancesShrink | src/plugin/wave-sensor-algorithms.js:458-459 | with P00 + R0 > 0 no variance on the diagonal grows |
| KalmanWave.ComputeGain | src/plugin/wave-sensor-algorithms.js:437-446 | building H, R, S, S⁻¹ and the products computes the gain |
| KalmanWave.CorrectCovariance | src/plugin/wave-sensor-algorithms.js:458-459 | the matrix chain computes (I − K·H)·P |
| KalmanWave.ShiftedIsCorrected | src/plugin/wave-sensor-algorithms.js:448-455 | adding K·[0 − s0] component by component gives the corrected state |
| KalmanWave.KalmanWaveFilter.constructor | src/plugin/wave-sensor-algorithms.js:372-374 | the base construction |
| KalmanWave.KalmanWaveFilter.Predict | src/plugin/wave-sensor-algorithms.js:389-430 | the state becomes F·s + B·a and the covariance becomes F·P·Fᵀ + diag(q·dt) |
| KalmanWave.KalmanWaveFilter.UpdateStep | src/plugin/wave-sensor-algorithms.js:432-460 | the state and covariance take the corrected values for the gain of the old covariance, and the acceleration argument is not used |
| KalmanWave.KalmanWaveFilter.CorrectState | src/plugin/wave-sensor-algorithms.js:449-455 | the component loop leaves the corrected state, and the covariance is kept |
| KalmanWave.KalmanWaveFilter.Update | src/plugin/wave-sensor-algorithms.js:376-387 | predict, then correct, then return the heave state[1] |
| KalmanWaveAlt.AltTransition | src/plugin/wave-sensor-algorithms.js:487-505 | F is 5 x 5 |
| KalmanWaveAlt.AltTransitionEntries | src/plugin/wave-sensor-algorithms.js:488-505 | F holds the entries the source writes, and 0 elsewhere |
| KalmanWaveAlt.KHatOnlyInAccelerationRow | src/plugin/wave-sensor-algorithms.js:487-505 | only row 3 of F depends on kHat |
| KalmanWaveAlt.AltObservation | src/plugin/wave-sensor-algorithms.js:527-529 | H is 2 x 5 |
| KalmanWaveAlt.AltObservationRows | src/plugin/wave-sensor-algorithms.js:527-529 | H's rows select components 0 and 3 |
| KalmanWaveAlt.MeasurementNoiseMatrix | src/plugin/wave-sensor-algorithms.js:532-534 | R is 2 x 2 |
| KalmanWaveAlt.AltPredictedState | src/plugin/wave-sensor-algorithms.js:508-509 | the predicted state F·s has 5 components |
| KalmanWaveAlt.AltPredictedStateClosedForm | src/plugin/wave-sensor-algorithms.js:482-509 | s3 − s4 is integrated into the speed, heave and displacement integral, the acceleration gains kHat times the new heave, and the bias is kept |
| KalmanWaveAlt.AltPredictedCovariance | src/plugin/wave-sensor-algorithms.js:512-519 | F·P·Fᵀ + diag(q·dt) is 5 x 5 |
| KalmanWaveAlt.AltPredictedCovarianceSymmetric | src/plugin/wave-sensor-algorithms.js:512-519 | prediction keeps a symmetric covariance symmetric |
| KalmanWaveAlt.AltInnovationCovariance | src/plugin/wave-sensor-algorithms.js:537 | S is 2 x 2 |
| KalmanWaveAlt.AltInnovationCovarianceClosedForm | src/plugin/wave-sensor-algorithms.js:527-537 | S = [[P00 + r0, P03], [P30, P33 + r1]] |
| KalmanWaveAlt.AltInnovationCovarianceSymmetric | src/plugin/wave-sensor-algorithms.js:537 | a symmetric P gives a symmetric S |
| KalmanWaveAlt.AltGain | src/plugin/wave-sensor-algorithms.js:538 | K = P·Hᵀ·S⁻¹ is 5 x 2 |
| KalmanWaveAlt.AltGainClosedForm | src/plugin/wave-sensor-algorithms.js:538 | K is P's columns 0 and 3 times S⁻¹ |
| KalmanWaveAlt.AltGainOf | src/plugin/wave-sensor-algorithms.js:527-538 | the gain built from the filter's own S⁻¹ is 5 x 2 |
| KalmanWaveAlt.AltInnovation | src/plugin/wave-sensor-algorithms.js:541 | the innovation has two components |
| KalmanWaveAlt.AltCorrectedState | src/plugin/wave-sensor-algorithms.js:541-547 | the corrected state has 5 components |
| KalmanWaveAlt.AltCorrectedStateClosedForm | src/plugin/wave-sensor-algorithms.js:541-547 | each component moves by K's row times the innovation [0 − s0, a − s3] |
| KalmanWaveAlt.AltCorrectedCovariance | src/plugin/wave-sensor-algorithms.js:550-551 | (I − K·H)·P is 5 x 5 |
| KalmanWaveAlt.AltCorrectedCovarianceClosedForm | src/plugin/wave-sensor-algorithms.js:550-551 | (I − K·H)·P equals P − K·(P's rows 0 and 3) |
| KalmanWaveAlt.ComputeAltGain | src/plugin/wave-sensor-algorithms.js:527-538 | building H, R, S, S⁻¹ and the products computes the gain |
| KalmanWaveAlt.CorrectAltCovariance | src/plugin/wave-sensor-algorithms.js:550-551 | the matrix chain computes (I − K·H)·P |
| KalmanWaveAlt.AltCorrection | src/plugin/wave-sensor-algorithms.js:527-551 | the body of `updateStep` yields the corrected state and covariance |
| KalmanWaveAlt.AltShiftedIsCorrected | src/plugin/wave-sensor-algorithms.js:541-547 | adding K·innovation component by component gives the corrected state |
| KalmanWaveAlt.KalmanWaveAltFilter.constructor | src/plugin/wave-sensor-algorithms.js:465-467 | the base construction |
| KalmanWaveAlt.KalmanWaveAltFilter.Predict | src/plugin/wave-sensor-algorithms.js:482-520 | the state becomes F·s and the covariance becomes F·P·Fᵀ + diag(q·dt), and the acceleration argument is not used |
| KalmanWaveAlt.KalmanWaveAltFilter.UpdateStep | src/plugin/wave-sensor-algorithms.js:522-552 | the state and covariance take the corrected values for the gain of the old covariance |
| KalmanWaveAlt.KalmanWaveAltFilter.Update | src/plugin/wave-sensor-algorithms.js:469-480 | predict, then correct, then return the heave state[1] |
| Aranovskiy.OrDefault | src/plugin/wave-sensor-algorithms.js:310-313 | `option \|\| default` keeps a given nonzero value and otherwise takes the default |
| Aranovskiy.Clamp | src/plugin/wave-sensor-algorithms.js:358-361 | inside the bounds the value is kept, outside them the result lies in [lower, upper], and with crossed bounds the result is lower |
| Aranovskiy.ClampIdempotent | src/plugin/wave-sensor-algorithms.js:358-361 | clamping twice is the same as clamping once |
| Aranovskiy.Response | src/plugin/wave-sensor-algorithms.js:329-338 | y solves the implicit difference equation y + b·(y + y1 + y2) = x + 2·x1 + x2, with b = omega²·dt² |
| Aranovskiy.StepVanishesAfterShift | src/plugin/wave-sensor-algorithms.js:341-352 | with the delay line already shifted, dx = dy = 0 and the frequency correction is 0 |
| Aranovskiy.FrequencyFrozen | src/plugin/wave-sensor-algorithms.js:341-361 | after any number n ≥ 1 of updates the frequency is the initial guess clamped once, and an in-range guess never moves |
| Aranovskiy.AranovskiyFilter.constructor | src/plugin/wave-sensor-algorithms.js:309-323 | the options fall back to 1.0, 0.25, 0.05 and 1.0, the frequency starts at freqGuess, and the delay line, phase and amplitude start at 0 |
| Aranovskiy.AranovskiyFilter.Update | src/plugin/wave-sensor-algorithms.js:325-368 | x2 = old x1, x1 = x, y2 = old y1, y1 = y, the frequency becomes the old one clamped and is returned, and the amplitude and phase come from (x, y) |
| Js.DeltaSeconds | src/plugin/index.js:98-100 | dt·1000 is the elapsed milliseconds, and dt is positive, or 0, exactly when the clock moved forward, or stood still |
| FilterBank.Step | src/plugin/index.js:108-117 | the 4-state filter, then the 5-state filter with the tracker's previous frequency, then the tracker, all on the same acceleration; returns both heaves and the new frequency |
| SensorPlugin.ConvertToInt16 | src/plugin/index.js:149-152 | the result lies in [−32768, 32767] and is negative exactly when the high byte is at least 0x80 |
| SensorPlugin.BitwiseDecoding | src/plugin/index.js:150-151 | on bytes, the bitwise `(high << 8) \| low` with the sign fold equals the function |
| SensorPlugin.DecodeEncode | src/plugin/index.js:149-152 | every 16-bit value is decoded back from its two's-complement bytes |
| SensorPlugin.EncodeDecode | src/plugin/index.js:149-152 | every byte pair is the encoding of its decoded value |
| SensorPlugin.DecodeExamples | src/plugin/index.js:149-152 | (0x7F, 0xFF) is 32767, (0x80, 0) is −32768, (0xFF, 0xFF) is −1 and (0, 0) is 0 |
| SensorPlugin.GyroQuat | src/plugin/index.js:172-177 | the gyroscope increment has real part 1 |
| SensorPlugin.Blend | src/plugin/index.js:181-184 | blending a quaternion with itself gives it back |
| SensorPlugin.ZeroNormIffZeroReading | src/plugin/index.js:159-162 | with a true square root, the norm is 0 exactly for the all-zero reading |
| SensorPlugin.ZeroReadingKeepsAttitude | src/plugin/index.js:159-162 | an all-zero reading leaves the attitude unchanged |
| SensorPlugin.NonZeroReadingForgetsAttitude | src/plugin/index.js:164-185 | for a nonzero reading the new attitude does not depend on the previous one: it is normalize(0.98·normalize(accelQuat·gyroQuat) + 0.02·accelQuat), a unit quaternion when that blend is nonzero |
| SensorPlugin.LevelVerticalAcceleration | src/plugin/index.js:188-205 | with a level attitude the vertical acceleration is the reading's z component |
| SensorPlugin.WaveHeaveSensor.InitFilters | src/plugin/index.js:55-81 | state and process-noise lengths are 4 and 5, measurement-noise lengths are 1 and 2, the values are the configured ones, the covariances are the initial ones, the tracker starts at its guess 0.25 inside [0.05, 1.0] with a zero delay line, phase and amplitude, the attitude is (1, 0, 0, 0) and the clock is now |
| SensorPlugin.WaveHeaveSensor.UpdateAttitude | src/plugin/index.js:154-186 | the attitude becomes NextAttitude of the old one; for a zero norm it is the same object, otherwise a fresh one |
| SensorPlugin.WaveHeaveSensor.CollectData | src/plugin/index.js:90-121 | the clock becomes now, dt is (now − previous)/1000, the attitude is updated first, its vertical acceleration feeds the three filters in the source's order, and the outputs are both heaves and the new frequency |
| LocalMonitor.Degrees | src/test-local.js:128-129 | degrees·pi = radians·180 |
| LocalMonitor.NextStationaryCount | src/test-local.js:114-121 | the count goes up by one exactly when roll and pitch both moved less than 0.001, and returns to 0 exactly when either did not |
| LocalMonitor.FilterInput | src/test-local.js:151-167 | the value fed to the filters lies in [−2, 2] |
| LocalMonitor.SpeedTracksDifference | src/test-local.js:156-159 | the smoothed speed moves a tenth of the way from the previous speed toward the finite-difference rate |
| LocalMonitor.RestFeedsZero | src/test-local.js:151-167 | an unchanged displacement with a zero previous speed feeds 0 to the filters |
| LocalMonitor.Monitor.constructor | src/test-local.js:15-49 | the filters get the local configuration (noise 0.01/0.001 and 0.5), the tracker starts at its guess 0.1 in [0.05, 1.0] with a zero delay line, phase and amplitude, and the counters, angles and record start at 0 |
| LocalMonitor.Monitor.ProcessAttitude | src/test-local.js:106-194 | when the clock did not move, nothing changes; otherwise the clock, counter and last angles advance; a stationary sensor zeroes the record and touches no filter; a moving one feeds the clamped input to the three filters in order and stores the new record |

## Left out

- Floating point. Rounding, NaN and Infinity are not modelled, because all arithmetic is on `real`. So the `|| 0` fallbacks on the filter outputs (src/test-local.js:170-176) are not modelled: they only matter for NaN.
- The `Math` functions are parameters, not the real functions. Properties that need them assume only `IsSqrt` or `FixesOrigin`. `Math.PI` is the real constant `Js.Pi`, 3.141592653589793.
- Hardware and lifecycle are not part of this model:
  - the I2C initialisation (`initIMU`) and the register reads and scaling in `readAccelerometer` and `readGyroscope`, beyond `convertToInt16`;
  - the `setInterval` start and stop;
  - `publishData`, the SignalK client, subscription, console output and SIGINT handling in src/test-local.js.
  - The readings arrive as `Vec3` values instead.
- src/app.js, src/theme.js and vite.config.js are not part of this model. They hold the browser gauge, the theme toggle and the build configuration.
- Matrix dimension errors: `Matrices.Multiply`, `Matrices.Add` and `Matrices.Subtract` return `Err(DimensionMismatch)` where the source throws. A matrix built with explicit data of the wrong length (source line 6) is outside the model: every `Matrix` satisfies `Valid()`.
- GaussJordan.Inverse: a zero pivot ends the computation with `Err(ZeroPivot)`, where the source divides by 0 and goes on with Infinity and NaN. `A·A⁻¹ = I` is proved only for 1 x 1 matrices (`InverseOneByOne`), the case the 4-state filter uses.
- Kalman.KalmanFilter.Predict: this requires a process-noise sequence at least as long as the state. Otherwise the source reads `undefined` and writes NaN.
- Kalman.KalmanFilter.UpdateStep: this requires a non-empty state, at least one measurement-noise value and P00 + R0 ≠ 0. On an empty state the source reads `state[0]` as `undefined` and gets NaN; with P00 + R0 = 0 it divides by 0.
- Kalman.KalmanFilter.Update: this requires a non-empty state, at least one measurement-noise value, a process-noise sequence at least as long as the state, and a nonzero P00 + R0 after prediction. Otherwise the source reads `undefined` or divides by 0.
- KalmanWave.KalmanWaveFilter.Predict: this requires a 4-component state and at least 4 process-noise values. Both drivers configure exactly these lengths (src/plugin/index.js:57-61, src/test-local.js:15-19). With other lengths the source reads `undefined` or `multiply` throws on the mismatched shapes.
- KalmanWave.KalmanWaveFilter.UpdateStep and KalmanWave.KalmanWaveFilter.Update: these require a 4-component state and at least 1 measurement-noise value (Update: also at least 4 process-noise values), and P00 + R0 ≠ 0, so that S is invertible. The drivers configure these lengths.
- KalmanWaveAlt.KalmanWaveAltFilter.Predict: this requires a 5-component state and at least 5 process-noise values. Both drivers configure exactly these lengths (src/plugin/index.js:64-68, src/test-local.js:21-25). With other lengths the source reads `undefined` or `multiply` throws on the mismatched shapes.
- KalmanWaveAlt.KalmanWaveAltFilter.UpdateStep and KalmanWaveAlt.KalmanWaveAltFilter.Update: these require a 5-component state and at least 2 measurement-noise values (Update: also at least 5 process-noise values), and that S inverts without a zero pivot. The drivers configure these lengths.
- Aranovskiy.AranovskiyFilter.Update: this requires dt ≠ 0 and a nonzero sample (x² + y² ≠ 0). The source computes dx and dy by dividing by dt, and divides by x² + y².
  - The sample is (0, 0) when a zero input meets a zero delay line. One such case is the first sample of a level, still sensor in the local monitor: see `RestFeedsZero` and the zero delay line the constructors set.
  - The source then computes 0/0, and the frequency becomes NaN.
  - `Math.min` and `Math.max` pass NaN through, so every later frequency stays NaN.
  - The NaN also reaches the 5-state filter as kHat on every later cycle (src/plugin/index.js:112, src/test-local.js:172).
  - The model does not represent this state, because the precondition excludes the zero sample.
- SensorPlugin.WaveHeaveSensor.CollectData: this requires what the three filters require at the computed dt. `collectData` has no guard, so dt = 0, for example two readings in one millisecond, gives NaN in the source.
- LocalMonitor.Monitor.ProcessAttitude: this requires, when the sensor is moving, what the three filters require at the clamped input.
- The frequency tracker never adapts. The delay line is shifted before dx and dy are computed, so the correction is always 0. This is modelled as written, not corrected: `StepVanishesAfterShift` and `FrequencyFrozen` state the consequence.
- `toEuler` and `fromEuler` are specification functions over the `Math` parameters; only their value at the level attitude is proved (`LevelRoundTrip`). The same holds for `getVerticalAcceleration`, whose unused x and y rotations are left out, and for the sin/cos displacement in the local monitor.
