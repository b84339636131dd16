/**
 * The 5-state trochoidal wave filter (`KalmanWaveAltFilter` in
 * src/plugin/wave-sensor-algorithms.js, lines 462-553).  The state is
 * [displacement integral, heave, vertical speed, vertical acceleration,
 * acceleration bias].  Unlike the 4-state filter the acceleration is part of
 * the state: prediction uses no input, and the update observes both the
 * displacement integral (as 0) and the measured acceleration.  The trochoidal
 * coupling kHat ties the predicted acceleration to the predicted heave.
 *
 * The gain uses the 2 x 2 inverse of S; it is a parameter `sInverse` of the
 * specification functions, and the filter requires `GaussJordanInverse(S)`
 * to succeed.
 */
module KalmanWaveAlt {
  import opened Matrices
  import opened GaussJordan
  import opened Kalman

  /** F (lines 487-505). */
  function AltTransition(kHat: real, t: real): (f: Matrix)
    ensures f.Valid() && f.rows == 5 && f.cols == 5
  {
    var t2 := t * t;
    FromRows([[1.0, t, 0.5 * t2, (t2 * t) / 6.0, (-t2 * t) / 6.0],
              [0.0, 1.0, t, 0.5 * t2, -0.5 * t2],
              [0.0, 0.0, 1.0, t, -t],
              [0.0, kHat, kHat * t, 1.0 + 0.5 * kHat * t2, -0.5 * kHat * t2],
              [0.0, 0.0, 0.0, 0.0, 1.0]], 5)
  }

  /** H (lines 527-529): the displacement integral and the vertical acceleration are observed. */
  function AltObservation(): (h: Matrix)
    ensures h.Valid() && h.rows == 2 && h.cols == 5
  {
    FromRows([[1.0, 0.0, 0.0, 0.0, 0.0],
              [0.0, 0.0, 0.0, 1.0, 0.0]], 5)
  }

  /** R = diag(r0, r1) (lines 532-534). */
  function MeasurementNoiseMatrix(r0: real, r1: real): (r: Matrix)
    ensures r.Valid() && r.rows == 2 && r.cols == 2
  {
    FromRows([[r0, 0.0], [0.0, r1]], 2)
  }

  /** The predicted state F·s (lines 508-509). */
  function AltPredictedState(s: seq<real>, kHat: real, t: real): (r: seq<real>)
    requires |s| == 5
    ensures |r| == 5
  {
    TimesOne();
    Product(AltTransition(kHat, t), Column(s)).data
  }

  /** F·P·Fᵀ + diag(q·dt) (lines 512-519). */
  function AltPredictedCovariance(p: Matrix, q: seq<real>, kHat: real, t: real): (m: Matrix)
    requires p.Valid() && p.rows == 5 && p.cols == 5 && |q| >= 5
    ensures m.Valid() && m.rows == 5 && m.cols == 5
  {
    var f := AltTransition(kHat, t);
    Sum(Product(Product(f, p), Transposed(f)), NoiseCovariance(q, t, 5))
  }

  /** S = H·P·Hᵀ + R (line 537). */
  function AltInnovationCovariance(p: Matrix, r0: real, r1: real): (m: Matrix)
    requires p.Valid() && p.rows == 5 && p.cols == 5
    ensures m.Valid() && m.rows == 2 && m.cols == 2
  {
    var h := AltObservation();
    Sum(Product(Product(h, p), Transposed(h)), MeasurementNoiseMatrix(r0, r1))
  }

  /** K = P·Hᵀ·S⁻¹ (line 538), for a given 2 x 2 S⁻¹. */
  function AltGain(p: Matrix, sInverse: Matrix): (k: Matrix)
    requires p.Valid() && p.rows == 5 && p.cols == 5
    requires sInverse.Valid() && sInverse.rows == 2 && sInverse.cols == 2
    ensures k.Valid() && k.rows == 5 && k.cols == 2
  {
    Product(Product(p, Transposed(AltObservation())), sInverse)
  }

  /** The gain the filter computes from P, R0 and R1, when S inverts without a zero pivot. */
  function AltGainOf(p: Matrix, r0: real, r1: real): (k: Matrix)
    requires p.Valid() && p.rows == 5 && p.cols == 5
    requires GaussJordanInverse(AltInnovationCovariance(p, r0, r1)).Ok?
    ensures k.Valid() && k.rows == 5 && k.cols == 2
  {
    AltGain(p, GaussJordanInverse(AltInnovationCovariance(p, r0, r1)).value)
  }

  /** The innovation [0 - s0, a - s3] (line 541). */
  function AltInnovation(s: seq<real>, acceleration: real): (v: seq<real>)
    requires |s| == 5
    ensures |v| == 2
  {
    [0.0 - s[0], acceleration - s[3]]
  }

  /** The state after `updateStep` with gain K (lines 541-547): s + K·innovation. */
  function AltCorrectedState(s: seq<real>, k: Matrix, acceleration: real): (r: seq<real>)
    requires |s| == 5 && k.Valid() && k.rows == 5 && k.cols == 2
    ensures |r| == 5
  {
    var c := Product(k, Column(AltInnovation(s, acceleration)));
    seq(5, i requires 0 <= i < 5 => s[i] + c.Get(i, 0))
  }

  /** The covariance after `updateStep` with gain K: (I - K·H)·P (lines 550-551). */
  function AltCorrectedCovariance(p: Matrix, k: Matrix): (m: Matrix)
    requires p.Valid() && p.rows == 5 && p.cols == 5 && k.Valid() && k.rows == 5 && k.cols == 2
    ensures m.Valid() && m.rows == 5 && m.cols == 5
  {
    Product(Difference(IdentityOf(5), Product(k, AltObservation())), p)
  }

  // ---------------------------------------------------------------------------
  // Prediction
  // ---------------------------------------------------------------------------

  /** Five-term row-by-column sums written out. */
  lemma RowColFive(a: Matrix, b: Matrix, i: nat, j: nat)
    requires a.Valid() && b.Valid() && a.cols == 5 && b.rows == 5 && i < a.rows && j < b.cols
    ensures RowCol(a, b, i, j, 5) ==
      a.Get(i, 0) * b.Get(0, j) + a.Get(i, 1) * b.Get(1, j) + a.Get(i, 2) * b.Get(2, j) +
      a.Get(i, 3) * b.Get(3, j) + a.Get(i, 4) * b.Get(4, j)
  {
    RowColStep(a, b, i, j, 5);
    RowColStep(a, b, i, j, 4);
    RowColStep(a, b, i, j, 3);
    RowColStep(a, b, i, j, 2);
    RowColStep(a, b, i, j, 1);
  }

  /** Component i of F·s is row i of F times s, for any 5 x 5 F. */
  lemma TransformedComponent(f: Matrix, s: seq<real>, i: nat)
    requires f.Valid() && f.rows == 5 && f.cols == 5 && |s| == 5 && i < 5
    ensures Times(5, 1) == 5
    ensures Product(f, Column(s)).Get(i, 0) ==
      f.Get(i, 0) * s[0] + f.Get(i, 1) * s[1] + f.Get(i, 2) * s[2] + f.Get(i, 3) * s[3] + f.Get(i, 4) * s[4]
  {
    TimesOne();
    var col := Column(s);
    RowColFive(f, col, i, 0);
    SubstituteFive(Product(f, col).Get(i, 0), f.Get(i, 0), f.Get(i, 1), f.Get(i, 2), f.Get(i, 3), f.Get(i, 4),
                   col.Get(0, 0), col.Get(1, 0), col.Get(2, 0), col.Get(3, 0), col.Get(4, 0), s[0], s[1], s[2], s[3], s[4]);
  }

  lemma SubstituteFive(v: real, f0: real, f1: real, f2: real, f3: real, f4: real,
                       c0: real, c1: real, c2: real, c3: real, c4: real,
                       s0: real, s1: real, s2: real, s3: real, s4: real)
    requires v == f0 * c0 + f1 * c1 + f2 * c2 + f3 * c3 + f4 * c4
    requires c0 == s0 && c1 == s1 && c2 == s2 && c3 == s3 && c4 == s4
    ensures v == f0 * s0 + f1 * s1 + f2 * s2 + f3 * s3 + f4 * s4
  {
  }

  /** The components of F·s, each as its row of F. */
  lemma TransformedComponents(f: Matrix, s: seq<real>)
    requires f.Valid() && f.rows == 5 && f.cols == 5 && |s| == 5
    ensures Times(5, 1) == 5
    ensures |Product(f, Column(s)).data| == 5
    ensures forall i {:trigger Product(f, Column(s)).data[i]} :: 0 <= i < 5 ==>
        Product(f, Column(s)).data[i] == f.Get(i, 0) * s[0] + f.Get(i, 1) * s[1] + f.Get(i, 2) * s[2] + f.Get(i, 3) * s[3] + f.Get(i, 4) * s[4]
  {
    TimesOne();
    var m := Product(f, Column(s));
    ColumnOfData(m);
    forall i | 0 <= i < 5
      ensures m.data[i] ==
        f.Get(i, 0) * s[0] + f.Get(i, 1) * s[1] + f.Get(i, 2) * s[2] + f.Get(i, 3) * s[3] + f.Get(i, 4) * s[4]
    {
      TransformedComponent(f, s, i);
      assert m.data[i] == m.Get(i, 0);
    }
  }

  /** F's entries as the source sets them (lines 488-505); all others are 0. */
  ghost predicate TrochoidalEntries(f: Matrix, kHat: real, t: real)
    requires f.Valid() && f.rows == 5 && f.cols == 5
  {
    f.Get(0, 0) == 1.0 && f.Get(0, 1) == t && f.Get(0, 2) == 0.5 * (t * t) && f.Get(0, 3) == ((t * t) * t) / 6.0 && f.Get(0, 4) == (-(t * t) * t) / 6.0 &&
    f.Get(1, 0) == 0.0 && f.Get(1, 1) == 1.0 && f.Get(1, 2) == t && f.Get(1, 3) == 0.5 * (t * t) && f.Get(1, 4) == -0.5 * (t * t) &&
    f.Get(2, 0) == 0.0 && f.Get(2, 1) == 0.0 && f.Get(2, 2) == 1.0 && f.Get(2, 3) == t && f.Get(2, 4) == -t &&
    f.Get(3, 0) == 0.0 && f.Get(3, 1) == kHat && f.Get(3, 2) == kHat * t && f.Get(3, 3) == 1.0 + 0.5 * kHat * (t * t) && f.Get(3, 4) == -0.5 * kHat * (t * t) &&
    f.Get(4, 0) == 0.0 && f.Get(4, 1) == 0.0 && f.Get(4, 2) == 0.0 && f.Get(4, 3) == 0.0 && f.Get(4, 4) == 1.0
  }

  /** The entries of F as the source sets them; all others are 0. */
  lemma AltTransitionEntries(kHat: real, t: real)
    ensures TrochoidalEntries(AltTransition(kHat, t), kHat, t)
  {
  }

  /** Only row 3 of F (the acceleration row) depends on kHat. */
  lemma KHatOnlyInAccelerationRow(kHat: real, other: real, t: real)
    ensures forall i, j :: 0 <= i < 5 && i != 3 && 0 <= j < 5 ==>
      AltTransition(kHat, t).Get(i, j) == AltTransition(other, t).Get(i, j)
    ensures kHat != other ==> AltTransition(kHat, t).Get(3, 1) != AltTransition(other, t).Get(3, 1)
  {
    AltTransitionEntries(kHat, t);
    AltTransitionEntries(other, t);
  }

  /**
   * Prediction integrates the bias-corrected acceleration s3 - s4 into speed,
   * heave and displacement integral; the new acceleration is the old one plus
   * kHat times the new heave (a' = a + kHat·z'); the bias is carried over.
   */
  lemma AltPredictedStateClosedForm(s: seq<real>, kHat: real, t: real)
    requires |s| == 5
    ensures var r := AltPredictedState(s, kHat, t);
      
      r[4] == s[4] &&
      r[3] == s[3] + kHat * r[1] &&
      r[2] == s[2] + t * (s[3] - s[4]) &&
      r[1] == s[1] + t * s[2] + 0.5 * (t * t) * (s[3] - s[4]) &&
      r[0] == s[0] + t * s[1] + 0.5 * (t * t) * s[2] + ((t * t) * t) / 6.0 * (s[3] - s[4])
  {
    AltTransitionEntries(kHat, t);
    TrochoidalStep(AltTransition(kHat, t), s, kHat, t);
  }

  /** F·s in closed form for any 5 x 5 F holding the source's entries. */
  lemma TrochoidalStep(f: Matrix, s: seq<real>, kHat: real, t: real)
    requires f.Valid() && f.rows == 5 && f.cols == 5 && |s| == 5
    requires TrochoidalEntries(f, kHat, t)
    ensures Times(5, 1) == 5
    ensures var r := Product(f, Column(s)).data;
      |r| == 5 &&
      r[4] == s[4] &&
      r[3] == s[3] + kHat * r[1] &&
      r[2] == s[2] + t * (s[3] - s[4]) &&
      r[1] == s[1] + t * s[2] + 0.5 * (t * t) * (s[3] - s[4]) &&
      r[0] == s[0] + t * s[1] + 0.5 * (t * t) * s[2] + ((t * t) * t) / 6.0 * (s[3] - s[4])
  {
    TransformedComponents(f, s);
    TrochoidalRow0(f, s, kHat, t);
    TrochoidalRow1(f, s, kHat, t);
    TrochoidalRow2(f, s, kHat, t);
    TrochoidalRow3(f, s, kHat, t);
    TrochoidalRow4(f, s, kHat, t);
  }

  lemma TrochoidalRow0(f: Matrix, s: seq<real>, kHat: real, t: real)
    requires f.Valid() && f.rows == 5 && f.cols == 5 && |s| == 5
    requires TrochoidalEntries(f, kHat, t)
    requires Times(5, 1) == 5 && |Product(f, Column(s)).data| == 5
    requires forall i {:trigger Product(f, Column(s)).data[i]} :: 0 <= i < 5 ==>
        Product(f, Column(s)).data[i] == f.Get(i, 0) * s[0] + f.Get(i, 1) * s[1] + f.Get(i, 2) * s[2] + f.Get(i, 3) * s[3] + f.Get(i, 4) * s[4]
    ensures Product(f, Column(s)).data[0] == s[0] + t * s[1] + 0.5 * (t * t) * s[2] + ((t * t) * t) / 6.0 * (s[3] - s[4])
  {
    var r := Product(f, Column(s)).data;
    DisplacementRow(r[0], s[0], s[1], s[2], s[3], s[4], t, f.Get(0, 0), f.Get(0, 1), f.Get(0, 2), f.Get(0, 3), f.Get(0, 4));
  }

  lemma TrochoidalRow1(f: Matrix, s: seq<real>, kHat: real, t: real)
    requires f.Valid() && f.rows == 5 && f.cols == 5 && |s| == 5
    requires TrochoidalEntries(f, kHat, t)
    requires Times(5, 1) == 5 && |Product(f, Column(s)).data| == 5
    requires forall i {:trigger Product(f, Column(s)).data[i]} :: 0 <= i < 5 ==>
        Product(f, Column(s)).data[i] == f.Get(i, 0) * s[0] + f.Get(i, 1) * s[1] + f.Get(i, 2) * s[2] + f.Get(i, 3) * s[3] + f.Get(i, 4) * s[4]
    ensures Product(f, Column(s)).data[1] == s[1] + t * s[2] + 0.5 * (t * t) * (s[3] - s[4])
  {
    var r := Product(f, Column(s)).data;
    HeaveRow(r[1], s[0], s[1], s[2], s[3], s[4], t, f.Get(1, 0), f.Get(1, 1), f.Get(1, 2), f.Get(1, 3), f.Get(1, 4));
  }

  lemma TrochoidalRow2(f: Matrix, s: seq<real>, kHat: real, t: real)
    requires f.Valid() && f.rows == 5 && f.cols == 5 && |s| == 5
    requires TrochoidalEntries(f, kHat, t)
    requires Times(5, 1) == 5 && |Product(f, Column(s)).data| == 5
    requires forall i {:trigger Product(f, Column(s)).data[i]} :: 0 <= i < 5 ==>
        Product(f, Column(s)).data[i] == f.Get(i, 0) * s[0] + f.Get(i, 1) * s[1] + f.Get(i, 2) * s[2] + f.Get(i, 3) * s[3] + f.Get(i, 4) * s[4]
    ensures Product(f, Column(s)).data[2] == s[2] + t * (s[3] - s[4])
  {
    var r := Product(f, Column(s)).data;
    SpeedRow(r[2], s[0], s[1], s[2], s[3], s[4], t, f.Get(2, 0), f.Get(2, 1), f.Get(2, 2), f.Get(2, 3), f.Get(2, 4));
  }

  lemma TrochoidalRow3(f: Matrix, s: seq<real>, kHat: real, t: real)
    requires f.Valid() && f.rows == 5 && f.cols == 5 && |s| == 5
    requires TrochoidalEntries(f, kHat, t)
    requires Times(5, 1) == 5 && |Product(f, Column(s)).data| == 5
    requires forall i {:trigger Product(f, Column(s)).data[i]} :: 0 <= i < 5 ==>
        Product(f, Column(s)).data[i] == f.Get(i, 0) * s[0] + f.Get(i, 1) * s[1] + f.Get(i, 2) * s[2] + f.Get(i, 3) * s[3] + f.Get(i, 4) * s[4]
    ensures Product(f, Column(s)).data[3] == s[3] + kHat * Product(f, Column(s)).data[1]
  {
    var r := Product(f, Column(s)).data;
    TrochoidalRow1(f, s, kHat, t);
    AccelerationRow(r[3], r[1], s[0], s[1], s[2], s[3], s[4], kHat, t, f.Get(3, 0), f.Get(3, 1), f.Get(3, 2), f.Get(3, 3), f.Get(3, 4));
  }

  lemma TrochoidalRow4(f: Matrix, s: seq<real>, kHat: real, t: real)
    requires f.Valid() && f.rows == 5 && f.cols == 5 && |s| == 5
    requires TrochoidalEntries(f, kHat, t)
    requires Times(5, 1) == 5 && |Product(f, Column(s)).data| == 5
    requires forall i {:trigger Product(f, Column(s)).data[i]} :: 0 <= i < 5 ==>
        Product(f, Column(s)).data[i] == f.Get(i, 0) * s[0] + f.Get(i, 1) * s[1] + f.Get(i, 2) * s[2] + f.Get(i, 3) * s[3] + f.Get(i, 4) * s[4]
    ensures Product(f, Column(s)).data[4] == s[4]
  {
    var r := Product(f, Column(s)).data;
    BiasRow(r[4], s[0], s[1], s[2], s[3], s[4], f.Get(4, 0), f.Get(4, 1), f.Get(4, 2), f.Get(4, 3), f.Get(4, 4));
  }

  /** Row 0 of F·s: the displacement integral. */
  lemma DisplacementRow(r: real, s0: real, s1: real, s2: real, s3: real, s4: real, t: real,
                        f0: real, f1: real, f2: real, f3: real, f4: real)
    requires f0 == 1.0 && f1 == t && f2 == 0.5 * (t * t) && f3 == ((t * t) * t) / 6.0 && f4 == (-(t * t) * t) / 6.0
    requires r == f0 * s0 + f1 * s1 + f2 * s2 + f3 * s3 + f4 * s4
    ensures r == s0 + t * s1 + 0.5 * (t * t) * s2 + ((t * t) * t) / 6.0 * (s3 - s4)
  {
  }

  /** Row 1 of F·s: the heave. */
  lemma HeaveRow(r: real, s0: real, s1: real, s2: real, s3: real, s4: real, t: real,
                 f0: real, f1: real, f2: real, f3: real, f4: real)
    requires f0 == 0.0 && f1 == 1.0 && f2 == t && f3 == 0.5 * (t * t) && f4 == -0.5 * (t * t)
    requires r == f0 * s0 + f1 * s1 + f2 * s2 + f3 * s3 + f4 * s4
    ensures r == s1 + t * s2 + 0.5 * (t * t) * (s3 - s4)
  {
  }

  /** Row 2 of F·s: the vertical speed. */
  lemma SpeedRow(r: real, s0: real, s1: real, s2: real, s3: real, s4: real, t: real,
                 f0: real, f1: real, f2: real, f3: real, f4: real)
    requires f0 == 0.0 && f1 == 0.0 && f2 == 1.0 && f3 == t && f4 == -t
    requires r == f0 * s0 + f1 * s1 + f2 * s2 + f3 * s3 + f4 * s4
    ensures r == s2 + t * (s3 - s4)
  {
  }

  /** Row 3 of F·s: the acceleration, kHat times the new heave added. */
  lemma AccelerationRow(r: real, r1: real, s0: real, s1: real, s2: real, s3: real, s4: real, k: real, t: real,
                        f0: real, f1: real, f2: real, f3: real, f4: real)
    requires f0 == 0.0 && f1 == k && f2 == k * t && f3 == 1.0 + 0.5 * k * (t * t) && f4 == -0.5 * k * (t * t)
    requires r == f0 * s0 + f1 * s1 + f2 * s2 + f3 * s3 + f4 * s4
    requires r1 == s1 + t * s2 + 0.5 * (t * t) * (s3 - s4)
    ensures r == s3 + k * r1
  {
    assert r == s3 + k * (s1 + t * s2 + 0.5 * (t * t) * (s3 - s4));
  }

  /** Row 4 of F·s: the bias, carried over. */
  lemma BiasRow(r: real, s0: real, s1: real, s2: real, s3: real, s4: real,
                f0: real, f1: real, f2: real, f3: real, f4: real)
    requires f0 == 0.0 && f1 == 0.0 && f2 == 0.0 && f3 == 0.0 && f4 == 1.0
    requires r == f0 * s0 + f1 * s1 + f2 * s2 + f3 * s3 + f4 * s4
    ensures r == s4
  {
  }

  /** Prediction keeps the covariance 5 x 5 and symmetric. */
  lemma AltPredictedCovarianceSymmetric(p: Matrix, q: seq<real>, kHat: real, t: real)
    requires Symmetric(p) && p.rows == 5 && |q| >= 5
    ensures Symmetric(AltPredictedCovariance(p, q, kHat, t))
  {
    var f := AltTransition(kHat, t);
    CongruenceSymmetric(f, p);
    NoiseCovarianceSymmetric(q, t, 5);
    SumSymmetric(Product(Product(f, p), Transposed(f)), NoiseCovariance(q, t, 5));
  }

  // ---------------------------------------------------------------------------
  // Correction
  // ---------------------------------------------------------------------------

  /** Row 0 of H is e_0 and row 1 is e_3. */
  lemma AltObservationRows()
    ensures forall t :: 0 <= t < 5 ==> AltObservation().Get(0, t) == if t == 0 then 1.0 else 0.0
    ensures forall t :: 0 <= t < 5 ==> AltObservation().Get(1, t) == if t == 3 then 1.0 else 0.0
  {
  }

  /**
   * For a 2-row H whose rows are e_0 and e_3, H·P picks rows 0 and 3 of P.
   * Stated over arbitrary H.
   */
  lemma PickRows(h: Matrix, p: Matrix)
    requires h.Valid() && p.Valid() && h.rows == 2 && h.cols == 5 && p.rows == 5 && p.cols == 5
    requires forall t :: 0 <= t < 5 ==> h.Get(0, t) == if t == 0 then 1.0 else 0.0
    requires forall t :: 0 <= t < 5 ==> h.Get(1, t) == if t == 3 then 1.0 else 0.0
    ensures forall j {:trigger Product(h, p).Get(0, j)} :: 0 <= j < 5 ==> Product(h, p).Get(0, j) == p.Get(0, j)
    ensures forall j {:trigger Product(h, p).Get(1, j)} :: 0 <= j < 5 ==> Product(h, p).Get(1, j) == p.Get(3, j)
  {
    forall j | 0 <= j < 5
      ensures Product(h, p).Get(0, j) == p.Get(0, j) && Product(h, p).Get(1, j) == p.Get(3, j)
    {
      RowColUnitRow(h, p, 0, j, 0, 5);
      RowColUnitRow(h, p, 1, j, 3, 5);
    }
  }

  /**
   * For a 2 x 5 matrix g whose columns 0 and 3 are e_0 and e_1 (Hᵀ's rows),
   * m·g picks columns 0 and 3 of any 2 x 5 m.  Stated over arbitrary g.
   */
  lemma PickColumns(m: Matrix, g: Matrix)
    requires m.Valid() && g.Valid() && m.rows == 2 && m.cols == 5 && g.rows == 5 && g.cols == 2
    requires forall t :: 0 <= t < 5 ==> g.Get(t, 0) == if t == 0 then 1.0 else 0.0
    requires forall t :: 0 <= t < 5 ==> g.Get(t, 1) == if t == 3 then 1.0 else 0.0
    ensures forall a {:trigger Product(m, g).Get(a, 0)} :: 0 <= a < 2 ==> Product(m, g).Get(a, 0) == m.Get(a, 0)
    ensures forall a {:trigger Product(m, g).Get(a, 1)} :: 0 <= a < 2 ==> Product(m, g).Get(a, 1) == m.Get(a, 3)
  {
    forall a | 0 <= a < 2
      ensures Product(m, g).Get(a, 0) == m.Get(a, 0) && Product(m, g).Get(a, 1) == m.Get(a, 3)
    {
      RowColUnitColumn(m, g, a, 0, 0, 5);
      RowColUnitColumn(m, g, a, 1, 3, 5);
    }
  }

  /** S is [[P00 + r0, P03], [P30, P33 + r1]]. */
  lemma AltInnovationCovarianceClosedForm(p: Matrix, r0: real, r1: real)
    requires p.Valid() && p.rows == 5 && p.cols == 5
    ensures var s := AltInnovationCovariance(p, r0, r1);
      s.Get(0, 0) == p.Get(0, 0) + r0 && s.Get(0, 1) == p.Get(0, 3) &&
      s.Get(1, 0) == p.Get(3, 0) && s.Get(1, 1) == p.Get(3, 3) + r1
  {
    AltObservationRows();
    PickedCovariance(AltObservation(), p);
  }

  /** H·P·Hᵀ for any H whose rows are e_0 and e_3: the entries of P at rows and columns 0 and 3. */
  lemma PickedCovariance(h: Matrix, p: Matrix)
    requires h.Valid() && p.Valid() && h.rows == 2 && h.cols == 5 && p.rows == 5 && p.cols == 5
    requires forall t :: 0 <= t < 5 ==> h.Get(0, t) == if t == 0 then 1.0 else 0.0
    requires forall t :: 0 <= t < 5 ==> h.Get(1, t) == if t == 3 then 1.0 else 0.0
    ensures var m := Product(Product(h, p), Transposed(h));
      m.Get(0, 0) == p.Get(0, 0) && m.Get(0, 1) == p.Get(0, 3) &&
      m.Get(1, 0) == p.Get(3, 0) && m.Get(1, 1) == p.Get(3, 3)
  {
    var hp := Product(h, p);
    var ht := Transposed(h);
    PickRows(h, p);
    assert forall t :: 0 <= t < 5 ==> ht.Get(t, 0) == h.Get(0, t) && ht.Get(t, 1) == h.Get(1, t);
    PickColumns(hp, ht);
  }

  /** A symmetric P gives a symmetric S. */
  lemma AltInnovationCovarianceSymmetric(p: Matrix, r0: real, r1: real)
    requires Symmetric(p) && p.rows == 5
    ensures Symmetric(AltInnovationCovariance(p, r0, r1))
  {
    AltInnovationCovarianceClosedForm(p, r0, r1);
  }

  /**
   * Each corrected component moves by K's row times the innovation
   * [0 - s0, a - s3] (AltInnovation).
   */
  lemma AltCorrectedStateClosedForm(s: seq<real>, k: Matrix, acceleration: real)
    requires |s| == 5 && k.Valid() && k.rows == 5 && k.cols == 2
    ensures forall i {:trigger AltCorrectedState(s, k, acceleration)[i]} :: 0 <= i < 5 ==>
      AltCorrectedState(s, k, acceleration)[i] ==
        s[i] + (k.Get(i, 0) * AltInnovation(s, acceleration)[0] + k.Get(i, 1) * AltInnovation(s, acceleration)[1])
  {
    forall i | 0 <= i < 5
      ensures AltCorrectedState(s, k, acceleration)[i] ==
        s[i] + (k.Get(i, 0) * AltInnovation(s, acceleration)[0] + k.Get(i, 1) * AltInnovation(s, acceleration)[1])
    {
      AltCorrectedComponent(s, k, acceleration, i);
    }
  }

  lemma AltCorrectedComponent(s: seq<real>, k: Matrix, acceleration: real, i: nat)
    requires |s| == 5 && k.Valid() && k.rows == 5 && k.cols == 2 && i < 5
    ensures AltCorrectedState(s, k, acceleration)[i] ==
      s[i] + (k.Get(i, 0) * AltInnovation(s, acceleration)[0] + k.Get(i, 1) * AltInnovation(s, acceleration)[1])
  {
    InnerTwoColumn(k, AltInnovation(s, acceleration), i);
  }

  /** An entry of a·v for a two-column a and a two-component column v. */
  lemma InnerTwoColumn(a: Matrix, v: seq<real>, i: nat)
    requires a.Valid() && a.cols == 2 && |v| == 2 && i < a.rows
    ensures Product(a, Column(v)).Get(i, 0) == a.Get(i, 0) * v[0] + a.Get(i, 1) * v[1]
  {
    var c := Column(v);
    RowColStep(a, c, i, 0, 2);
    RowColStep(a, c, i, 0, 1);
    SumOfTwo(RowCol(a, c, i, 0, 2), RowCol(a, c, i, 0, 1), RowCol(a, c, i, 0, 0),
             a.Get(i, 0), c.Get(0, 0), a.Get(i, 1), c.Get(1, 0), v[0], v[1]);
  }

  /** An entry of a·b for a two-column a. */
  lemma InnerTwo(a: Matrix, b: Matrix, i: nat, j: nat)
    requires a.Valid() && b.Valid() && a.cols == 2 && b.rows == 2 && i < a.rows && j < b.cols
    ensures Product(a, b).Get(i, j) == a.Get(i, 0) * b.Get(0, j) + a.Get(i, 1) * b.Get(1, j)
  {
    RowColStep(a, b, i, j, 2);
    RowColStep(a, b, i, j, 1);
    SumOfTwo(RowCol(a, b, i, j, 2), RowCol(a, b, i, j, 1), RowCol(a, b, i, j, 0),
             a.Get(i, 0), b.Get(0, j), a.Get(i, 1), b.Get(1, j), b.Get(0, j), b.Get(1, j));
  }

  /** Two steps of a row-by-column sum starting from 0, the second factors replaced by equal values. */
  lemma SumOfTwo(v: real, r1: real, r0: real, a0: real, b0: real, a1: real, b1: real, c0: real, c1: real)
    requires r0 == 0.0 && r1 == r0 + a0 * b0 && v == r1 + a1 * b1 && b0 == c0 && b1 == c1
    ensures v == a0 * c0 + a1 * c1
  {
  }

  /** P's rows 0 and 3, the rows H·P picks out. */
  function ObservedRows(p: Matrix): (m: Matrix)
    requires p.Valid() && p.rows == 5 && p.cols == 5
    ensures m.Valid() && m.rows == 2 && m.cols == 5
  {
    FromRows([[p.Get(0, 0), p.Get(0, 1), p.Get(0, 2), p.Get(0, 3), p.Get(0, 4)],
              [p.Get(3, 0), p.Get(3, 1), p.Get(3, 2), p.Get(3, 3), p.Get(3, 4)]], 5)
  }

  /** P's columns 0 and 3, the columns P·Hᵀ picks out. */
  function ObservedColumns(p: Matrix): (m: Matrix)
    requires p.Valid() && p.rows == 5 && p.cols == 5
    ensures m.Valid() && m.rows == 5 && m.cols == 2
  {
    FromRows([[p.Get(0, 0), p.Get(0, 3)], [p.Get(1, 0), p.Get(1, 3)], [p.Get(2, 0), p.Get(2, 3)],
              [p.Get(3, 0), p.Get(3, 3)], [p.Get(4, 0), p.Get(4, 3)]], 2)
  }

  /** (I - K·H)·P = P - K·(rows 0 and 3 of P): the correction only involves the observed rows. */
  lemma AltCorrectedCovarianceClosedForm(p: Matrix, k: Matrix)
    requires p.Valid() && p.rows == 5 && p.cols == 5 && k.Valid() && k.rows == 5 && k.cols == 2
    ensures AltCorrectedCovariance(p, k) == Difference(p, Product(k, ObservedRows(p)))
  {
    var h := AltObservation();
    CorrectionSubtracts(k, h, p);
    AltObservationRows();
    PickRows(h, p);
    ObservedRowsAre(Product(h, p), p);
  }

  /** A 2 x 5 matrix holding P's rows 0 and 3 is ObservedRows(P). */
  lemma ObservedRowsAre(m: Matrix, p: Matrix)
    requires m.Valid() && p.Valid() && m.rows == 2 && m.cols == 5 && p.rows == 5 && p.cols == 5
    requires forall j {:trigger m.Get(0, j)} :: 0 <= j < 5 ==> m.Get(0, j) == p.Get(0, j)
    requires forall j {:trigger m.Get(1, j)} :: 0 <= j < 5 ==> m.Get(1, j) == p.Get(3, j)
    ensures m == ObservedRows(p)
  {
    var rows := ObservedRows(p);
    forall i, j | 0 <= i < 2 && 0 <= j < 5
      ensures m.Get(i, j) == rows.Get(i, j)
    {
      if i == 0 {
        assert m.Get(0, j) == p.Get(0, j);
      } else {
        assert m.Get(1, j) == p.Get(3, j);
      }
    }
    Ext(m, rows);
  }

  /** K = (columns 0 and 3 of P)·S⁻¹: the gain only involves the observed columns. */
  lemma AltGainClosedForm(p: Matrix, sInverse: Matrix)
    requires p.Valid() && p.rows == 5 && p.cols == 5
    requires sInverse.Valid() && sInverse.rows == 2 && sInverse.cols == 2
    ensures AltGain(p, sInverse) == Product(ObservedColumns(p), sInverse)
  {
    var h := AltObservation();
    var ht := Transposed(h);
    AltObservationRows();
    assert forall t :: 0 <= t < 5 ==> ht.Get(t, 0) == h.Get(0, t) && ht.Get(t, 1) == h.Get(1, t);
    PickFirstAndFourth(p, ht);
    ObservedColumnsAre(Product(p, ht), p);
  }

  /** A 5 x 2 matrix holding P's columns 0 and 3 is ObservedColumns(P). */
  lemma ObservedColumnsAre(m: Matrix, p: Matrix)
    requires m.Valid() && p.Valid() && m.rows == 5 && m.cols == 2 && p.rows == 5 && p.cols == 5
    requires forall i {:trigger m.Get(i, 0)} :: 0 <= i < 5 ==> m.Get(i, 0) == p.Get(i, 0)
    requires forall i {:trigger m.Get(i, 1)} :: 0 <= i < 5 ==> m.Get(i, 1) == p.Get(i, 3)
    ensures m == ObservedColumns(p)
  {
    var cols := ObservedColumns(p);
    forall i, j | 0 <= i < 5 && 0 <= j < 2
      ensures m.Get(i, j) == cols.Get(i, j)
    {
      if j == 0 {
        assert m.Get(i, 0) == p.Get(i, 0);
      } else {
        assert m.Get(i, 1) == p.Get(i, 3);
      }
    }
    Ext(m, cols);
  }

  lemma PickFirstAndFourth(p: Matrix, g: Matrix)
    requires p.Valid() && g.Valid() && p.rows == 5 && p.cols == 5 && g.rows == 5 && g.cols == 2
    requires forall t :: 0 <= t < 5 ==> g.Get(t, 0) == if t == 0 then 1.0 else 0.0
    requires forall t :: 0 <= t < 5 ==> g.Get(t, 1) == if t == 3 then 1.0 else 0.0
    ensures forall i {:trigger Product(p, g).Get(i, 0)} :: 0 <= i < 5 ==> Product(p, g).Get(i, 0) == p.Get(i, 0)
    ensures forall i {:trigger Product(p, g).Get(i, 1)} :: 0 <= i < 5 ==> Product(p, g).Get(i, 1) == p.Get(i, 3)
  {
    forall i | 0 <= i < 5
      ensures Product(p, g).Get(i, 0) == p.Get(i, 0) && Product(p, g).Get(i, 1) == p.Get(i, 3)
    {
      RowColUnitColumn(p, g, i, 0, 0, 5);
      RowColUnitColumn(p, g, i, 1, 3, 5);
    }
  }

  // ---------------------------------------------------------------------------
  // Steps of `predict` and `updateStep`
  // ---------------------------------------------------------------------------

  /** H, R, S = H·P·Hᵀ + R, S⁻¹ and K = P·Hᵀ·S⁻¹ (lines 527-538); S must invert without a zero pivot. */
  method ComputeAltGain(p: Matrix, r0: real, r1: real) returns (k: Matrix)
    requires p.Valid() && p.rows == 5 && p.cols == 5
    requires GaussJordanInverse(AltInnovationCovariance(p, r0, r1)).Ok?
    ensures k.Valid() && k.rows == 5 && k.cols == 2
    ensures k == AltGainOf(p, r0, r1)
  {
    var h := AltObservation();
    var r := MeasurementNoiseMatrix(r0, r1);
    var hp := Multiply(h, p);
    var ht := Transpose(h);
    var hph := Multiply(hp.value, ht);
    var sm := Add(hph.value, r);
    var sInverse := Inverse(sm.value);
    var pht := Multiply(p, ht);
    var gain := Multiply(pht.value, sInverse.value);
    k := gain.value;
  }

  /** (I - K·H)·P (lines 550-551). */
  method CorrectAltCovariance(p: Matrix, k: Matrix) returns (c: Matrix)
    requires p.Valid() && p.rows == 5 && p.cols == 5 && k.Valid() && k.rows == 5 && k.cols == 2
    ensures c.Valid() && c.rows == 5 && c.cols == 5
    ensures c == AltCorrectedCovariance(p, k)
  {
    var id := Identity(5);
    var kh := Multiply(k, AltObservation());
    var d := Subtract(id, kh.value);
    var product := Multiply(d.value, p);
    c := product.value;
  }

  /**
   * The body of `updateStep` (lines 527-551) on the filter's state and covariance:
   * the gain, the state moved by K·[0 - s0, a - s3] component by component,
   * and the covariance (I - K·H)·P.
   */
  method AltCorrection(s: seq<real>, p: Matrix, r0: real, r1: real, acceleration: real)
    returns (next: seq<real>, c: Matrix)
    requires |s| == 5 && p.Valid() && p.rows == 5 && p.cols == 5
    requires GaussJordanInverse(AltInnovationCovariance(p, r0, r1)).Ok?
    ensures |next| == 5 && c.Valid() && c.rows == 5 && c.cols == 5
    ensures next == AltCorrectedState(s, AltGainOf(p, r0, r1), acceleration)
    ensures c == AltCorrectedCovariance(p, AltGainOf(p, r0, r1))
  {
    var k := ComputeAltGain(p, r0, r1);
    var innovation := [0.0 - s[0], acceleration - s[3]];
    var product := Multiply(k, Column(innovation));
    var update := product.value;
    next := AddColumn(s, update);
    AltShiftedIsCorrected(s, k, acceleration, update, next);
    c := CorrectAltCovariance(p, k);
  }

  // ---------------------------------------------------------------------------
  // The filter object
  // ---------------------------------------------------------------------------

  class KalmanWaveAltFilter {
    var state: seq<real>
    /** Set once by the constructor and only read afterwards. */
    const processNoise: seq<real>
    const measurementNoise: seq<real>
    var covariance: Matrix

    /** The covariance is a valid n x n matrix for the n-component state. */
    predicate Valid()
      reads this
    {
      covariance.Valid() && covariance.rows == |state| && covariance.cols == |state|
    }

    /** `new KalmanWaveAltFilter(options)` (lines 465-467): the base constructor. */
    constructor (options: FilterOptions)
      ensures Valid()
      ensures state == OrEmpty(options.stateVector)
      ensures processNoise == OrEmpty(options.processNoise)
      ensures measurementNoise == OrEmpty(options.measurementNoise)
      ensures covariance == InitialCovariance(|state|)
    {
      var s := OrEmpty(options.stateVector);
      var cov := NewCovariance(|s|);
      state := s;
      processNoise := OrEmpty(options.processNoise);
      measurementNoise := OrEmpty(options.measurementNoise);
      covariance := cov;
    }

    /** `predict(acceleration, kHat, deltaT)` (lines 482-520); the acceleration is not used. */
    method Predict(acceleration: real, kHat: real, deltaT: real)
      requires Valid() && |state| == 5 && |processNoise| >= 5
      modifies this
      ensures Valid() && |state| == 5
      ensures state == AltPredictedState(old(state), kHat, deltaT)
      ensures covariance == AltPredictedCovariance(old(covariance), processNoise, kHat, deltaT)
    {
      var f := AltTransition(kHat, deltaT);
      var fs := Multiply(f, Column(state));
      TimesOne();
      state := fs.value.data;
      var q := ProcessNoiseMatrix(processNoise, deltaT, 5);
      var fp := Multiply(f, covariance);
      var ft := Transpose(f);
      var fpf := Multiply(fp.value, ft);
      var c := Add(fpf.value, q);
      covariance := c.value;
    }

    /**
     * `updateStep(acceleration)` (lines 522-552): observes the displacement
     * integral as 0 and the vertical acceleration as `acceleration`.
     */
    method UpdateStep(acceleration: real)
      requires Valid() && |state| == 5 && |measurementNoise| >= 2
      requires GaussJordanInverse(AltInnovationCovariance(covariance, measurementNoise[0], measurementNoise[1])).Ok?
      modifies this
      ensures Valid() && |state| == 5
      ensures var k := AltGainOf(old(covariance), measurementNoise[0], measurementNoise[1]);
        state == AltCorrectedState(old(state), k, acceleration) &&
        covariance == AltCorrectedCovariance(old(covariance), k)
    {
      hide GaussJordanInverse, AltInnovationCovariance, AltGainOf, AltCorrectedState, AltCorrectedCovariance;
      var next, c := AltCorrection(state, covariance, measurementNoise[0], measurementNoise[1], acceleration);
      state, covariance := next, c;
    }

    /** `update(acceleration, kHat, deltaT)` (lines 468-480): predict, correct, return the heave. */
    method Update(acceleration: real, kHat: real, deltaT: real) returns (heave: real)
      requires Valid() && |state| == 5 && |processNoise| >= 5 && |measurementNoise| >= 2
      requires GaussJordanInverse(AltInnovationCovariance(AltPredictedCovariance(covariance, processNoise, kHat, deltaT),
                                                          measurementNoise[0], measurementNoise[1])).Ok?
      modifies this
      ensures Valid() && |state| == 5
      ensures var p := AltPredictedCovariance(old(covariance), processNoise, kHat, deltaT);
        var k := AltGainOf(p, measurementNoise[0], measurementNoise[1]);
        state == AltCorrectedState(AltPredictedState(old(state), kHat, deltaT), k, acceleration) &&
        covariance == AltCorrectedCovariance(p, k)
      ensures heave == state[1]
    {
      Predict(acceleration, kHat, deltaT);
      UpdateStep(acceleration);
      heave := state[1];
    }
  }

  /** Adding K·innovation entry by entry gives the corrected state. */
  lemma AltShiftedIsCorrected(s0: seq<real>, k: Matrix, acceleration: real, update: Matrix, s: seq<real>)
    requires |s0| == 5 && |s| == 5 && k.Valid() && k.rows == 5 && k.cols == 2
    requires update == Product(k, Column(AltInnovation(s0, acceleration)))
    requires forall t :: 0 <= t < 5 ==> s[t] == s0[t] + update.Get(t, 0)
    ensures s == AltCorrectedState(s0, k, acceleration)
  {
  }
}
