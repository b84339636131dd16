/**
 * The 4-state heave filter (`KalmanWaveFilter` in
 * src/plugin/wave-sensor-algorithms.js, lines 371-461).  The state is
 * [displacement integral, heave, vertical speed, acceleration bias]; the
 * filter integrates the measured vertical acceleration and pulls the
 * displacement integral towards 0.
 *
 * Each step is a composition of the `Matrices` specification functions, and
 * the methods run the same composition through the `Matrices` and
 * `GaussJordan` methods, as the source chains `multiply`, `transpose`, `add`,
 * `subtract` and `inverse`.
 */
module KalmanWave {
  import opened Matrices
  import opened GaussJordan
  import opened Kalman

  /** F (lines 391-406): a constant-jerk integrator with the bias subtracted. */
  function Transition(t: real): (f: Matrix)
    ensures f.Valid() && f.rows == 4 && f.cols == 4
  {
    var t2 := t * t;
    var t3 := t2 * t;
    FromRows([[1.0, t, 0.5 * t2, -t3 / 6.0],
              [0.0, 1.0, t, -0.5 * t2],
              [0.0, 0.0, 1.0, -t],
              [0.0, 0.0, 0.0, 1.0]], 4)
  }

  /** B (lines 409-413): how the measured acceleration enters each component. */
  function Control(t: real): (b: Matrix)
    ensures b.Valid() && b.rows == 4 && b.cols == 1
  {
    var t2 := t * t;
    var t3 := t2 * t;
    Column([t3 / 6.0, 0.5 * t2, t, 0.0])
  }

  /** H (lines 437-438): only the displacement integral is observed. */
  function Observation(): (h: Matrix)
    ensures h.Valid() && h.rows == 1 && h.cols == 4
  {
    FromRows([[1.0, 0.0, 0.0, 0.0]], 4)
  }

  /** F·s + b·a for any 4 x 4 F and 4 x 1 b, as a plain sequence. */
  function Propagated(f: Matrix, b: Matrix, s: seq<real>, acceleration: real): (r: seq<real>)
    requires f.Valid() && f.rows == 4 && f.cols == 4 && b.Valid() && b.rows == 4 && b.cols == 1
    requires |s| == 4
    ensures |r| == 4
  {
    TimesOne();
    Sum(Product(f, Column(s)), Scaled(b, acceleration)).data
  }

  /** The predicted state F·s + B·a (lines 416-420). */
  function PredictedState(s: seq<real>, acceleration: real, t: real): (r: seq<real>)
    requires |s| == 4
    ensures |r| == 4
  {
    Propagated(Transition(t), Control(t), s, acceleration)
  }

  /** F·P·Fᵀ + diag(q·dt) (lines 422-429). */
  function PredictedCovariance(p: Matrix, q: seq<real>, t: real): (m: Matrix)
    requires p.Valid() && p.rows == 4 && p.cols == 4 && |q| >= 4
    ensures m.Valid() && m.rows == 4 && m.cols == 4
  {
    var f := Transition(t);
    Sum(Product(Product(f, p), Transposed(f)), NoiseCovariance(q, t, 4))
  }

  /** S = H·P·Hᵀ + R (line 445), with R = [r0] (lines 441-442). */
  function InnovationCovariance(p: Matrix, r0: real): (m: Matrix)
    requires p.Valid() && p.rows == 4 && p.cols == 4
    ensures m.Valid() && m.rows == 1 && m.cols == 1
  {
    var h := Observation();
    Sum(Product(Product(h, p), Transposed(h)), Column([r0]))
  }

  /**
   * K = P·Hᵀ·S⁻¹ (line 446) in closed form: P's first column divided by
   * S = P00 + r0.  `GainIsProduct` shows the source's product is this matrix.
   */
  function Gain(p: Matrix, r0: real): (k: Matrix)
    requires p.Valid() && p.rows == 4 && p.cols == 4
    requires p.Get(0, 0) + r0 != 0.0
    ensures k.Valid() && k.rows == 4 && k.cols == 1
  {
    var w := 1.0 / (p.Get(0, 0) + r0);
    Column([p.Get(0, 0) * w, p.Get(1, 0) * w, p.Get(2, 0) * w, p.Get(3, 0) * w])
  }

  /** The state after `updateStep` with gain K (lines 448-455): s + K·[0 - s0]. */
  function CorrectedState(s: seq<real>, k: Matrix): (r: seq<real>)
    requires |s| == 4 && k.Valid() && k.rows == 4 && k.cols == 1
    ensures |r| == 4
  {
    var c := Product(k, Column([0.0 - s[0]]));
    seq(4, i requires 0 <= i < 4 => s[i] + c.Get(i, 0))
  }

  /** The covariance after `updateStep` with gain K: (I - K·H)·P (lines 458-459). */
  function CorrectedCovariance(p: Matrix, k: Matrix): (m: Matrix)
    requires p.Valid() && p.rows == 4 && p.cols == 4 && k.Valid() && k.rows == 4 && k.cols == 1
    ensures m.Valid() && m.rows == 4 && m.cols == 4
  {
    Product(Difference(IdentityOf(4), Product(k, Observation())), p)
  }

  // ---------------------------------------------------------------------------
  // Properties
  // ---------------------------------------------------------------------------

  /** F is upper triangular with a unit diagonal. */
  lemma TransitionUnitUpperTriangular(t: real)
    ensures forall i, j :: 0 <= j < i < 4 ==> Transition(t).Get(i, j) == 0.0
    ensures forall i :: 0 <= i < 4 ==> Transition(t).Get(i, i) == 1.0
  {
  }

  /** Prediction keeps the covariance 4 x 4 and symmetric. */
  lemma PredictedCovarianceSymmetric(p: Matrix, q: seq<real>, t: real)
    requires Symmetric(p) && p.rows == 4 && |q| >= 4
    ensures Symmetric(PredictedCovariance(p, q, t))
  {
    var f := Transition(t);
    CongruenceSymmetric(f, p);
    NoiseCovarianceSymmetric(q, t, 4);
    SumSymmetric(Product(Product(f, p), Transposed(f)), NoiseCovariance(q, t, 4));
  }

  /** S is the 1 x 1 matrix [P00 + r0]. */
  lemma InnovationCovarianceScalar(p: Matrix, r0: real)
    requires p.Valid() && p.rows == 4 && p.cols == 4
    ensures InnovationCovariance(p, r0) == Column([p.Get(0, 0) + r0])
  {
    var h := Observation();
    var hp := Product(h, p);
    var ht := Transposed(h);
    forall j | 0 <= j < 4
      ensures hp.Get(0, j) == p.Get(0, j)
    {
      RowColUnitRow(h, p, 0, j, 0, 4);
    }
    RowColUnitColumn(hp, ht, 0, 0, 0, 4);
    Ext(InnovationCovariance(p, r0), Column([p.Get(0, 0) + r0]));
  }

  /** Hᵀ is the unit column e_0. */
  lemma ObservationTransposedUnit()
    ensures forall t :: 0 <= t < 4 ==> Transposed(Observation()).Get(t, 0) == if t == 0 then 1.0 else 0.0
  {
    var h := Observation();
    forall t | 0 <= t < 4
      ensures Transposed(h).Get(t, 0) == if t == 0 then 1.0 else 0.0
    {
      assert Transposed(h).Get(t, 0) == h.Get(0, t);
    }
  }

  /** The source's P·Hᵀ·[1 / (P00 + r0)] is the closed-form gain. */
  lemma GainIsProduct(p: Matrix, r0: real)
    requires p.Valid() && p.rows == 4 && p.cols == 4
    requires p.Get(0, 0) + r0 != 0.0
    ensures Product(Product(p, Transposed(Observation())), Column([1.0 / (p.Get(0, 0) + r0)])) == Gain(p, r0)
  {
    var w := 1.0 / (p.Get(0, 0) + r0);
    var inv := Column([w]);
    var product := Product(Product(p, Transposed(Observation())), inv);
    ObservationTransposedUnit();
    GainColumn(p, Transposed(Observation()), inv, w);
    SameColumn(product, Gain(p, r0), p, w);
  }

  /** Two 4 x 1 matrices that both hold P(i, 0)·w are equal. */
  lemma SameColumn(m: Matrix, g: Matrix, p: Matrix, w: real)
    requires p.Valid() && p.rows == 4 && p.cols == 4
    requires m.Valid() && m.rows == 4 && m.cols == 1 && g.Valid() && g.rows == 4 && g.cols == 1
    requires forall i {:trigger m.Get(i, 0)} :: 0 <= i < 4 ==> m.Get(i, 0) == p.Get(i, 0) * w
    requires forall i {:trigger g.Get(i, 0)} :: 0 <= i < 4 ==> g.Get(i, 0) == p.Get(i, 0) * w
    ensures m == g
  {
    Ext(m, g);
  }

  /** (P·e_0)·[w] is P's first column scaled by w, for any square P and unit column e_0. */
  lemma GainColumn(p: Matrix, ht: Matrix, inv: Matrix, w: real)
    requires p.Valid() && ht.Valid() && inv.Valid() && p.rows == p.cols
    requires ht.rows == p.rows && ht.cols == 1 && inv.rows == 1 && inv.cols == 1 && inv.Get(0, 0) == w
    requires forall t :: 0 <= t < ht.rows ==> ht.Get(t, 0) == if t == 0 then 1.0 else 0.0
    ensures forall i {:trigger Product(Product(p, ht), inv).Get(i, 0)} :: 0 <= i < p.rows ==> Product(Product(p, ht), inv).Get(i, 0) == p.Get(i, 0) * w
  {
    forall i | 0 <= i < p.rows
      ensures Product(Product(p, ht), inv).Get(i, 0) == p.Get(i, 0) * w
    {
      GainEntry(p, ht, inv, w, i);
    }
  }

  /** (P·e_0)·[w] has entry P(i, 0)·w, for any square P and unit column e_0. */
  lemma GainEntry(p: Matrix, ht: Matrix, inv: Matrix, w: real, i: nat)
    requires p.Valid() && ht.Valid() && inv.Valid() && p.rows == p.cols && i < p.rows
    requires ht.rows == p.rows && ht.cols == 1 && inv.rows == 1 && inv.cols == 1 && inv.Get(0, 0) == w
    requires forall t :: 0 <= t < ht.rows ==> ht.Get(t, 0) == if t == 0 then 1.0 else 0.0
    ensures Product(Product(p, ht), inv).Get(i, 0) == p.Get(i, 0) * w
  {
    var pht := Product(p, ht);
    RowColUnitColumn(p, ht, i, 0, 0, p.rows);
    assert pht.Get(i, 0) == p.Get(i, 0);
    RowColStep(pht, inv, i, 0, 1);
    SingleTerm(Product(pht, inv).Get(i, 0), pht.Get(i, 0), inv.Get(0, 0), p.Get(i, 0), w);
  }

  lemma SingleTerm(v: real, x: real, c: real, y: real, z: real)
    requires v == 0.0 + x * c && x == y && c == z
    ensures v == y * z
  {
  }

  /** Four-term row-by-column sums written out. */
  lemma RowColFour(a: Matrix, b: Matrix, i: nat, j: nat)
    requires a.Valid() && b.Valid() && a.cols == 4 && b.rows == 4 && i < a.rows && j < b.cols
    ensures RowCol(a, b, i, j, 4) ==
      a.Get(i, 0) * b.Get(0, j) + a.Get(i, 1) * b.Get(1, j) + a.Get(i, 2) * b.Get(2, j) + a.Get(i, 3) * b.Get(3, j)
  {
    RowColStep(a, b, i, j, 4);
    RowColStep(a, b, i, j, 3);
    RowColStep(a, b, i, j, 2);
    RowColStep(a, b, i, j, 1);
  }

  /**
   * Component i of F·s + b·a is row i of F times s plus b(i)·a.  Stated over
   * arbitrary F and b so that the proof does not see their entries.
   */
  lemma PredictedComponent(f: Matrix, b: Matrix, s: seq<real>, acceleration: real, i: nat)
    requires f.Valid() && f.rows == 4 && f.cols == 4 && b.Valid() && b.rows == 4 && b.cols == 1
    requires |s| == 4 && i < 4
    ensures Times(4, 1) == 4
    ensures Sum(Product(f, Column(s)), Scaled(b, acceleration)).Get(i, 0) ==
      f.Get(i, 0) * s[0] + f.Get(i, 1) * s[1] + f.Get(i, 2) * s[2] + f.Get(i, 3) * s[3] + b.Get(i, 0) * acceleration
  {
    hide Product, Sum, Scaled, Column, RowCol;
    TimesOne();
    var col := Column(s);
    var fs := Product(f, col);
    RowColFour(f, col, i, 0);
    Substitute(fs.Get(i, 0), f.Get(i, 0), f.Get(i, 1), f.Get(i, 2), f.Get(i, 3),
               col.Get(0, 0), col.Get(1, 0), col.Get(2, 0), col.Get(3, 0), s[0], s[1], s[2], s[3]);
    var scaled := Scaled(b, acceleration);
    PlusControl(Sum(fs, scaled).Get(i, 0), fs.Get(i, 0), scaled.Get(i, 0),
                f.Get(i, 0) * s[0] + f.Get(i, 1) * s[1] + f.Get(i, 2) * s[2] + f.Get(i, 3) * s[3], b.Get(i, 0) * acceleration);
  }

  lemma PlusControl(v: real, x: real, y: real, x': real, y': real)
    requires v == x + y && x == x' && y == y'
    ensures v == x' + y'
  {
  }

  lemma Substitute(v: real, f0: real, f1: real, f2: real, f3: real,
                   c0: real, c1: real, c2: real, c3: real, s0: real, s1: real, s2: real, s3: real)
    requires v == f0 * c0 + f1 * c1 + f2 * c2 + f3 * c3
    requires c0 == s0 && c1 == s1 && c2 == s2 && c3 == s3
    ensures v == f0 * s0 + f1 * s1 + f2 * s2 + f3 * s3
  {
  }

  /** The components of F·s + b·a, each as its row of F and b. */
  lemma PropagatedComponents(f: Matrix, b: Matrix, s: seq<real>, acceleration: real)
    requires f.Valid() && f.rows == 4 && f.cols == 4 && b.Valid() && b.rows == 4 && b.cols == 1
    requires |s| == 4
    ensures var r := Propagated(f, b, s, acceleration);
      forall i :: 0 <= i < 4 ==>
        r[i] == f.Get(i, 0) * s[0] + f.Get(i, 1) * s[1] + f.Get(i, 2) * s[2] + f.Get(i, 3) * s[3] + b.Get(i, 0) * acceleration
  {
    var m := Sum(Product(f, Column(s)), Scaled(b, acceleration));
    ColumnOfData(m);
    forall i | 0 <= i < 4
      ensures Propagated(f, b, s, acceleration)[i] ==
        f.Get(i, 0) * s[0] + f.Get(i, 1) * s[1] + f.Get(i, 2) * s[2] + f.Get(i, 3) * s[3] + b.Get(i, 0) * acceleration
    {
      PredictedComponent(f, b, s, acceleration, i);
      assert Propagated(f, b, s, acceleration)[i] == m.Get(i, 0);
    }
  }

  /**
   * Prediction integrates the bias-corrected acceleration a - s3 over the step:
   * speed, heave and displacement integral gain its first, second and third
   * integrals, and the bias is carried over.
   */
  lemma PredictedStateClosedForm(s: seq<real>, acceleration: real, t: real)
    requires |s| == 4
    ensures var r := PredictedState(s, acceleration, t);
      r[3] == s[3] &&
      r[2] == s[2] + t * (acceleration - s[3]) &&
      r[1] == s[1] + t * s[2] + 0.5 * (t * t) * (acceleration - s[3]) &&
      r[0] == s[0] + t * s[1] + 0.5 * (t * t) * s[2] + (t * t * t) / 6.0 * (acceleration - s[3])
  {
    TransitionEntries(t);
    IntegrationStep(Transition(t), Control(t), s, acceleration, t);
  }

  /** F and B hold the entries the source writes into them for a step of length t. */
  ghost predicate IntegratorEntries(f: Matrix, b: Matrix, t: real)
    requires f.Valid() && f.rows == 4 && f.cols == 4 && b.Valid() && b.rows == 4 && b.cols == 1
  {
    f.Get(0, 0) == 1.0 && f.Get(0, 1) == t && f.Get(0, 2) == 0.5 * (t * t) && f.Get(0, 3) == -((t * t) * t) / 6.0 &&
    f.Get(1, 0) == 0.0 && f.Get(1, 1) == 1.0 && f.Get(1, 2) == t && f.Get(1, 3) == -0.5 * (t * t) &&
    f.Get(2, 0) == 0.0 && f.Get(2, 1) == 0.0 && f.Get(2, 2) == 1.0 && f.Get(2, 3) == -t &&
    f.Get(3, 0) == 0.0 && f.Get(3, 1) == 0.0 && f.Get(3, 2) == 0.0 && f.Get(3, 3) == 1.0 &&
    b.Get(0, 0) == ((t * t) * t) / 6.0 && b.Get(1, 0) == 0.5 * (t * t) && b.Get(2, 0) == t && b.Get(3, 0) == 0.0
  }

  /** The entries of F and B as the source sets them (lines 396-413). */
  lemma TransitionEntries(t: real)
    ensures IntegratorEntries(Transition(t), Control(t), t)
  {
  }

  /** F·s + B·a for any F and B with the integrator's entries, row by row. */
  lemma IntegrationStep(f: Matrix, b: Matrix, s: seq<real>, a: real, t: real)
    requires f.Valid() && f.rows == 4 && f.cols == 4 && b.Valid() && b.rows == 4 && b.cols == 1
    requires |s| == 4 && IntegratorEntries(f, b, t)
    ensures var r := Propagated(f, b, s, a);
      r[3] == s[3] &&
      r[2] == s[2] + t * (a - s[3]) &&
      r[1] == s[1] + t * s[2] + 0.5 * (t * t) * (a - s[3]) &&
      r[0] == s[0] + t * s[1] + 0.5 * (t * t) * s[2] + (t * t * t) / 6.0 * (a - s[3])
  {
    var r := Propagated(f, b, s, a);
    PropagatedComponents(f, b, s, a);
    DisplacementIntegralRow(r[0], s[0], s[1], s[2], s[3], a, t, f.Get(0, 0), f.Get(0, 1), f.Get(0, 2), f.Get(0, 3), b.Get(0, 0));
    HeaveRow(r[1], s[0], s[1], s[2], s[3], a, t, f.Get(1, 0), f.Get(1, 1), f.Get(1, 2), f.Get(1, 3), b.Get(1, 0));
    SpeedRow(r[2], s[0], s[1], s[2], s[3], a, t, f.Get(2, 0), f.Get(2, 1), f.Get(2, 2), f.Get(2, 3), b.Get(2, 0));
    BiasRow(r[3], s[0], s[1], s[2], s[3], a, f.Get(3, 0), f.Get(3, 1), f.Get(3, 2), f.Get(3, 3), b.Get(3, 0));
  }

  // Rows of F·s + B·a with the entries of F and B filled in.

  lemma DisplacementIntegralRow(v: real, s0: real, s1: real, s2: real, s3: real, a: real, t: real,
                                f0: real, f1: real, f2: real, f3: real, b: real)
    requires v == f0 * s0 + f1 * s1 + f2 * s2 + f3 * s3 + b * a
    requires f0 == 1.0 && f1 == t && f2 == 0.5 * (t * t) && f3 == -((t * t) * t) / 6.0 && b == ((t * t) * t) / 6.0
    ensures v == s0 + t * s1 + 0.5 * (t * t) * s2 + (t * t * t) / 6.0 * (a - s3)
  {
  }

  lemma HeaveRow(v: real, s0: real, s1: real, s2: real, s3: real, a: real, t: real,
                 f0: real, f1: real, f2: real, f3: real, b: real)
    requires v == f0 * s0 + f1 * s1 + f2 * s2 + f3 * s3 + b * a
    requires f0 == 0.0 && f1 == 1.0 && f2 == t && f3 == -0.5 * (t * t) && b == 0.5 * (t * t)
    ensures v == s1 + t * s2 + 0.5 * (t * t) * (a - s3)
  {
  }

  lemma SpeedRow(v: real, s0: real, s1: real, s2: real, s3: real, a: real, t: real,
                 f0: real, f1: real, f2: real, f3: real, b: real)
    requires v == f0 * s0 + f1 * s1 + f2 * s2 + f3 * s3 + b * a
    requires f0 == 0.0 && f1 == 0.0 && f2 == 1.0 && f3 == -t && b == t
    ensures v == s2 + t * (a - s3)
  {
  }

  lemma BiasRow(v: real, s0: real, s1: real, s2: real, s3: real, a: real,
                f0: real, f1: real, f2: real, f3: real, b: real)
    requires v == f0 * s0 + f1 * s1 + f2 * s2 + f3 * s3 + b * a
    requires f0 == 0.0 && f1 == 0.0 && f2 == 0.0 && f3 == 1.0 && b == 0.0
    ensures v == s3
  {
  }

  /** K·[v] scales the column K by v. */
  lemma ColumnTimesScalar(k: Matrix, v: real)
    requires k.Valid() && k.cols == 1
    ensures forall i :: 0 <= i < k.rows ==> Product(k, Column([v])).Get(i, 0) == k.Get(i, 0) * v
  {
    var col := Column([v]);
    forall i | 0 <= i < k.rows
      ensures Product(k, col).Get(i, 0) == k.Get(i, 0) * v
    {
      RowColStep(k, col, i, 0, 1);
      OneTerm(Product(k, col).Get(i, 0), k.Get(i, 0), col.Get(0, 0), v);
    }
  }

  lemma OneTerm(v: real, x: real, c: real, y: real)
    requires v == 0.0 + x * c && c == y
    ensures v == x * y
  {
  }

  /** Each corrected component moves by its gain entry times the innovation 0 - s0. */
  lemma CorrectedStateClosedForm(s: seq<real>, k: Matrix)
    requires |s| == 4 && k.Valid() && k.rows == 4 && k.cols == 1
    ensures forall i :: 0 <= i < 4 ==> CorrectedState(s, k)[i] == s[i] + k.Get(i, 0) * (0.0 - s[0])
  {
    ColumnTimesScalar(k, 0.0 - s[0]);
  }

  /**
   * The heave filter corrects its first component exactly as the scalar
   * filter does for a measurement of 0 with the same P00 and R0.
   */
  lemma CorrectedFirstIsScalar(s: seq<real>, p: Matrix, r0: real)
    requires |s| == 4 && p.Valid() && p.rows == 4 && p.cols == 4
    requires p.Get(0, 0) + r0 != 0.0
    ensures CorrectedState(s, Gain(p, r0))[0] == ScalarCorrected(s[0], 0.0, ScalarGain(p.Get(0, 0), r0))
  {
    CorrectedStateClosedForm(s, Gain(p, r0));
    TimesInverse(Gain(p, r0).Get(0, 0), p.Get(0, 0), p.Get(0, 0) + r0, ScalarGain(p.Get(0, 0), r0));
  }

  /**
   * The gain on the observed component is the base filter's scalar gain
   * P00 / (P00 + R0), so it lies in [0, 1) when P00 >= 0 and R0 > 0.
   */
  lemma GainFirstIsScalarGain(p: Matrix, r0: real)
    requires p.Valid() && p.rows == 4 && p.cols == 4
    requires p.Get(0, 0) + r0 != 0.0
    ensures Gain(p, r0).Get(0, 0) == ScalarGain(p.Get(0, 0), r0)
    ensures p.Get(0, 0) >= 0.0 && r0 > 0.0 ==> 0.0 <= Gain(p, r0).Get(0, 0) < 1.0
  {
    TimesInverse(Gain(p, r0).Get(0, 0), p.Get(0, 0), p.Get(0, 0) + r0, ScalarGain(p.Get(0, 0), r0));
    if p.Get(0, 0) >= 0.0 && r0 > 0.0 {
      ScalarGainBounds(p.Get(0, 0), r0);
    }
  }

  lemma TimesInverse(k: real, x: real, d: real, g: real)
    requires d != 0.0 && k == x * (1.0 / d) && g == x / d
    ensures k == g
  {
  }

  /** H is the unit row e_0. */
  lemma ObservationUnitRow()
    ensures forall t :: 0 <= t < 4 ==> Observation().Get(0, t) == if t == 0 then 1.0 else 0.0
  {
  }

  /**
   * For a one-row H whose row is the unit vector e_0, (I - K·H)·P subtracts
   * K(i)·P(0, j) from every entry.  Stated over arbitrary K and H.
   */
  lemma RankOneCorrection(c: Matrix, k: Matrix, h: Matrix, p: Matrix)
    requires k.Valid() && h.Valid() && p.Valid()
    requires p.rows == p.cols && k.rows == p.rows && k.cols == 1 && h.rows == 1 && h.cols == p.rows && p.rows > 0
    requires forall t :: 0 <= t < h.cols ==> h.Get(0, t) == if t == 0 then 1.0 else 0.0
    requires c == Product(Difference(IdentityOf(p.rows), Product(k, h)), p)
    ensures forall i, j {:trigger c.Get(i, j)} :: 0 <= i < p.rows && 0 <= j < p.rows ==> c.Get(i, j) == p.Get(i, j) - k.Get(i, 0) * p.Get(0, j)
  {
    CorrectionSubtracts(k, h, p);
    RankOneUpdate(k, h, p);
    DifferenceEntries(c, p, Product(k, Product(h, p)), k);
  }

  lemma DifferenceEntries(c: Matrix, p: Matrix, m: Matrix, k: Matrix)
    requires p.Valid() && m.Valid() && k.Valid() && p.rows == p.cols && m.rows == p.rows && m.cols == p.rows
    requires k.rows == p.rows && k.cols == 1 && p.rows > 0
    requires c == Difference(p, m)
    requires forall i, j {:trigger m.Get(i, j)} :: 0 <= i < p.rows && 0 <= j < p.rows ==> m.Get(i, j) == k.Get(i, 0) * p.Get(0, j)
    ensures forall i, j {:trigger c.Get(i, j)} :: 0 <= i < p.rows && 0 <= j < p.rows ==> c.Get(i, j) == p.Get(i, j) - k.Get(i, 0) * p.Get(0, j)
  {
  }

  /**
   * For a one-row H whose row is the unit vector e_0, K·(H·P) has entry
   * K(i)·P(0, j).  Stated over arbitrary K and H.
   */
  lemma RankOneUpdate(k: Matrix, h: Matrix, p: Matrix)
    requires k.Valid() && h.Valid() && p.Valid()
    requires p.rows == p.cols && k.rows == p.rows && k.cols == 1 && h.rows == 1 && h.cols == p.rows && p.rows > 0
    requires forall t :: 0 <= t < h.cols ==> h.Get(0, t) == if t == 0 then 1.0 else 0.0
    ensures forall i, j {:trigger Product(k, Product(h, p)).Get(i, j)} :: 0 <= i < p.rows && 0 <= j < p.rows ==>
      Product(k, Product(h, p)).Get(i, j) == k.Get(i, 0) * p.Get(0, j)
  {
    forall i, j | 0 <= i < p.rows && 0 <= j < p.rows
      ensures Product(k, Product(h, p)).Get(i, j) == k.Get(i, 0) * p.Get(0, j)
    {
      RankOneEntry(k, h, p, i, j);
    }
  }

  lemma RankOneEntry(k: Matrix, h: Matrix, p: Matrix, i: nat, j: nat)
    requires k.Valid() && h.Valid() && p.Valid()
    requires p.rows == p.cols && k.rows == p.rows && k.cols == 1 && h.rows == 1 && h.cols == p.rows
    requires i < p.rows && j < p.rows
    requires forall t :: 0 <= t < h.cols ==> h.Get(0, t) == if t == 0 then 1.0 else 0.0
    ensures Product(k, Product(h, p)).Get(i, j) == k.Get(i, 0) * p.Get(0, j)
  {
    hide Product;
    var hp := Product(h, p);
    RowColUnitRow(h, p, 0, j, 0, p.rows);
    assert hp.Get(0, j) == p.Get(0, j);
    RowColStep(k, hp, i, j, 1);
    OneTerm(Product(k, hp).Get(i, j), k.Get(i, 0), hp.Get(0, j), p.Get(0, j));
  }

  /** (I - K·H)·P subtracts K(i)·P(0, j) from every entry. */
  lemma CorrectedCovarianceClosedForm(p: Matrix, k: Matrix)
    requires p.Valid() && p.rows == 4 && p.cols == 4 && k.Valid() && k.rows == 4 && k.cols == 1
    ensures forall i, j {:trigger CorrectedCovariance(p, k).Get(i, j)} :: 0 <= i < 4 && 0 <= j < 4 ==>
      CorrectedCovariance(p, k).Get(i, j) == p.Get(i, j) - k.Get(i, 0) * p.Get(0, j)
  {
    ObservationUnitRow();
    RankOneCorrection(CorrectedCovariance(p, k), k, Observation(), p);
  }

  /** The corrected P00 is the scalar filter's corrected variance. */
  lemma CorrectedVarianceIsScalar(p: Matrix, r0: real)
    requires p.Valid() && p.rows == 4 && p.cols == 4
    requires p.Get(0, 0) + r0 != 0.0
    ensures CorrectedCovariance(p, Gain(p, r0)).Get(0, 0) == CorrectedVariance(p.Get(0, 0), r0)
  {
    var k := Gain(p, r0);
    var p00 := p.Get(0, 0);
    CorrectedCovarianceClosedForm(p, k);
    TimesInverse(k.Get(0, 0), p00, p00 + r0, ScalarGain(p00, r0));
    LessGain(CorrectedCovariance(p, k).Get(0, 0), p00, k.Get(0, 0), ScalarGain(p00, r0), CorrectedVariance(p00, r0));
  }

  lemma LessGain(v: real, x: real, k: real, g: real, c: real)
    requires v == x - k * x && k == g && c == (1.0 - g) * x
    ensures v == c
  {
  }

  /** The gain of a symmetric P is its first column scaled by w = 1 / (P00 + R0). */
  ghost predicate ScaledFirstColumn(k: Matrix, p: Matrix, w: real)
    requires k.Valid() && k.rows == 4 && k.cols == 1 && p.Valid() && p.rows == 4 && p.cols == 4
  {
    forall i :: 0 <= i < 4 ==> k.Get(i, 0) == p.Get(i, 0) * w
  }

  /** P(i, j) - K(i)·P(0, j) is symmetric when P is and K is P's first column scaled. */
  lemma RankOneSymmetric(c: Matrix, p: Matrix, k: Matrix, w: real)
    requires Symmetric(p) && p.rows == 4 && k.Valid() && k.rows == 4 && k.cols == 1
    requires c.Valid() && c.rows == 4 && c.cols == 4
    requires ScaledFirstColumn(k, p, w)
    requires forall i, j {:trigger c.Get(i, j)} :: 0 <= i < 4 && 0 <= j < 4 ==> c.Get(i, j) == p.Get(i, j) - k.Get(i, 0) * p.Get(0, j)
    ensures Symmetric(c)
  {
    forall i, j | 0 <= i < 4 && 0 <= j < 4
      ensures c.Get(i, j) == c.Get(j, i)
    {
      SwapFactors(c.Get(i, j), c.Get(j, i), p.Get(i, j), p.Get(j, i), k.Get(i, 0), k.Get(j, 0),
                  p.Get(0, i), p.Get(0, j), p.Get(i, 0), p.Get(j, 0), w);
    }
  }

  /** A correction by a scaled first column keeps a symmetric P symmetric. */
  lemma ScaledCorrectionSymmetric(p: Matrix, k: Matrix, w: real)
    requires Symmetric(p) && p.rows == 4 && k.Valid() && k.rows == 4 && k.cols == 1
    requires ScaledFirstColumn(k, p, w)
    ensures Symmetric(CorrectedCovariance(p, k))
  {
    CorrectedCovarianceClosedForm(p, k);
    RankOneSymmetric(CorrectedCovariance(p, k), p, k, w);
  }

  lemma SwapFactors(u: real, v: real, pij: real, pji: real, ki: real, kj: real,
                    p0i: real, p0j: real, pi0: real, pj0: real, w: real)
    requires u == pij - ki * p0j && v == pji - kj * p0i
    requires pij == pji && p0i == pi0 && p0j == pj0
    requires ki == pi0 * w && kj == pj0 * w
    ensures u == v
  {
  }

  /** P(i, i) - K(i)·P(0, i) is at most P(i, i) when K is P's first column scaled by w > 0. */
  lemma RankOneShrinks(c: Matrix, p: Matrix, k: Matrix, w: real)
    requires Symmetric(p) && p.rows == 4 && k.Valid() && k.rows == 4 && k.cols == 1
    requires c.Valid() && c.rows == 4 && c.cols == 4
    requires ScaledFirstColumn(k, p, w) && w > 0.0
    requires forall i, j {:trigger c.Get(i, j)} :: 0 <= i < 4 && 0 <= j < 4 ==> c.Get(i, j) == p.Get(i, j) - k.Get(i, 0) * p.Get(0, j)
    ensures forall i :: 0 <= i < 4 ==> c.Get(i, i) <= p.Get(i, i)
  {
    forall i | 0 <= i < 4
      ensures c.Get(i, i) <= p.Get(i, i)
    {
      SquareScaled(c.Get(i, i), p.Get(i, i), k.Get(i, 0), p.Get(0, i), p.Get(i, 0), w);
    }
  }

  /** A correction by a positively scaled first column lowers no variance of a symmetric P. */
  lemma ScaledCorrectionShrinks(p: Matrix, k: Matrix, w: real)
    requires Symmetric(p) && p.rows == 4 && k.Valid() && k.rows == 4 && k.cols == 1
    requires ScaledFirstColumn(k, p, w) && w > 0.0
    ensures forall i :: 0 <= i < 4 ==> CorrectedCovariance(p, k).Get(i, i) <= p.Get(i, i)
  {
    CorrectedCovarianceClosedForm(p, k);
    RankOneShrinks(CorrectedCovariance(p, k), p, k, w);
  }

  lemma SquareScaled(v: real, pii: real, k: real, p0i: real, pi0: real, w: real)
    requires w > 0.0 && v == pii - k * p0i && p0i == pi0 && k == pi0 * w
    ensures v <= pii
  {
    assert k * p0i == w * (pi0 * pi0);
  }

  /** The update keeps a symmetric covariance symmetric. */
  lemma CorrectedCovarianceSymmetric(p: Matrix, r0: real)
    requires Symmetric(p) && p.rows == 4
    requires p.Get(0, 0) + r0 != 0.0
    ensures Symmetric(CorrectedCovariance(p, Gain(p, r0)))
  {
    ScaledCorrectionSymmetric(p, Gain(p, r0), 1.0 / (p.Get(0, 0) + r0));
  }

  /**
   * With a symmetric covariance and P00 + R0 > 0 the update lowers no
   * variance: each diagonal entry loses P(i, 0)² / (P00 + R0).
   */
  lemma CorrectedVariancesShrink(p: Matrix, r0: real)
    requires Symmetric(p) && p.rows == 4
    requires p.Get(0, 0) + r0 > 0.0
    ensures forall i :: 0 <= i < 4 ==> CorrectedCovariance(p, Gain(p, r0)).Get(i, i) <= p.Get(i, i)
  {
    var w := 1.0 / (p.Get(0, 0) + r0);
    PositiveInverse(p.Get(0, 0) + r0, w);
    assert ScaledFirstColumn(Gain(p, r0), p, w);
    ScaledCorrectionShrinks(p, Gain(p, r0), w);
  }

  lemma PositiveInverse(d: real, w: real)
    requires d > 0.0 && w == 1.0 / d
    ensures w > 0.0
  {
  }

  // ---------------------------------------------------------------------------
  // Steps of `updateStep`
  // ---------------------------------------------------------------------------

  /** H, R, S = H·P·Hᵀ + R and K = P·Hᵀ·S⁻¹ (lines 437-446). */
  method ComputeGain(p: Matrix, r0: real) returns (k: Matrix)
    requires p.Valid() && p.rows == 4 && p.cols == 4
    requires p.Get(0, 0) + r0 != 0.0
    ensures k == Gain(p, r0)
  {
    var h := Observation();
    var r := Column([r0]);
    var hp := Multiply(h, p);
    var ht := Transpose(h);
    var hph := Multiply(hp.value, ht);
    var sm := Add(hph.value, r);
    InnovationCovarianceScalar(p, r0);
    InverseOneByOne(p.Get(0, 0) + r0);
    var sInverse := Inverse(sm.value);
    var pht := Multiply(p, ht);
    var gain := Multiply(pht.value, sInverse.value);
    GainIsProduct(p, r0);
    k := gain.value;
  }

  /** (I - K·H)·P (lines 458-459). */
  method CorrectCovariance(p: Matrix, k: Matrix) returns (c: Matrix)
    requires p.Valid() && p.rows == 4 && p.cols == 4 && k.Valid() && k.rows == 4 && k.cols == 1
    ensures c == CorrectedCovariance(p, k)
  {
    var id := Identity(4);
    var kh := Multiply(k, Observation());
    var d := Subtract(id, kh.value);
    var product := Multiply(d.value, p);
    c := product.value;
  }

  /** Adding K·[0 - s0] entry by entry gives the corrected state. */
  lemma ShiftedIsCorrected(s0: seq<real>, k: Matrix, update: Matrix, s: seq<real>)
    requires |s0| == 4 && |s| == 4 && k.Valid() && k.rows == 4 && k.cols == 1
    requires update == Product(k, Column([0.0 - s0[0]]))
    requires forall t :: 0 <= t < 4 ==> s[t] == s0[t] + update.Get(t, 0)
    ensures s == CorrectedState(s0, k)
  {
  }

  // ---------------------------------------------------------------------------
  // The filter object
  // ---------------------------------------------------------------------------

  class KalmanWaveFilter {
    var state: seq<real>
    /** Set once by the constructor and only read afterwards. */
    const processNoise: seq<real>
    const measurementNoise: seq<real>
    var covariance: Matrix

    /** The covariance is a valid n x n matrix for the n-component state. */
    predicate Valid()
      reads this
    {
      covariance.Valid() && covariance.rows == |state| && covariance.cols == |state|
    }

    /** `new KalmanWaveFilter(options)` (lines 372-374): the base constructor. */
    constructor (options: FilterOptions)
      ensures Valid()
      ensures state == OrEmpty(options.stateVector)
      ensures processNoise == OrEmpty(options.processNoise)
      ensures measurementNoise == OrEmpty(options.measurementNoise)
      ensures covariance == InitialCovariance(|state|)
    {
      var s := OrEmpty(options.stateVector);
      var cov := NewCovariance(|s|);
      state := s;
      processNoise := OrEmpty(options.processNoise);
      measurementNoise := OrEmpty(options.measurementNoise);
      covariance := cov;
    }

    /** `predict(acceleration, deltaT)` (lines 389-430). */
    method Predict(acceleration: real, deltaT: real)
      requires Valid() && |state| == 4 && |processNoise| >= 4
      modifies this
      ensures Valid() && |state| == 4
      ensures state == PredictedState(old(state), acceleration, deltaT)
      ensures covariance == PredictedCovariance(old(covariance), processNoise, deltaT)
    {
      var f := Transition(deltaT);
      var b := Control(deltaT);
      var fs := Multiply(f, Column(state));
      var ba := Scale(b, acceleration);
      var next := Add(fs.value, ba);
      TimesOne();
      state := next.value.data;
      var q := ProcessNoiseMatrix(processNoise, deltaT, 4);
      var fp := Multiply(f, covariance);
      var ft := Transpose(f);
      var fpf := Multiply(fp.value, ft);
      var c := Add(fpf.value, q);
      covariance := c.value;
    }

    /**
     * `updateStep(acceleration)` (lines 432-460): the displacement integral is
     * observed as 0.  S = [P00 + R0] must be invertible: the source would go on
     * with an infinite gain.
     */
    method UpdateStep(acceleration: real)
      requires Valid() && |state| == 4 && |measurementNoise| >= 1
      requires covariance.Get(0, 0) + measurementNoise[0] != 0.0
      modifies this
      ensures Valid() && |state| == 4
      ensures state == CorrectedState(old(state), Gain(old(covariance), measurementNoise[0]))
      ensures covariance == CorrectedCovariance(old(covariance), Gain(old(covariance), measurementNoise[0]))
    {
      var k := ComputeGain(covariance, measurementNoise[0]);
      CorrectState(k);
      covariance := CorrectCovariance(covariance, k);
    }

    /** Lines 449-455: s + K·[0 - s0], written component by component. */
    method CorrectState(k: Matrix)
      requires |state| == 4 && k.Valid() && k.rows == 4 && k.cols == 1
      modifies this
      ensures covariance == old(covariance)
      ensures state == CorrectedState(old(state), k)
    {
      var innovation := 0.0 - state[0];
      var product := Multiply(k, Column([innovation]));
      var update := product.value;
      var next := AddColumn(state, update);
      ShiftedIsCorrected(state, k, update, next);
      state := next;
    }

    /** `update(acceleration, deltaT)` (lines 376-387): predict, correct, return the heave. */
    method Update(acceleration: real, deltaT: real) returns (heave: real)
      requires Valid() && |state| == 4 && |processNoise| >= 4 && |measurementNoise| >= 1
      requires PredictedCovariance(covariance, processNoise, deltaT).Get(0, 0) + measurementNoise[0] != 0.0
      modifies this
      ensures Valid() && |state| == 4
      ensures var p := PredictedCovariance(old(covariance), processNoise, deltaT);
        var k := Gain(p, measurementNoise[0]);
        state == CorrectedState(PredictedState(old(state), acceleration, deltaT), k) &&
        covariance == CorrectedCovariance(p, k)
      ensures heave == state[1]
    {
      Predict(acceleration, deltaT);
      UpdateStep(acceleration);
      heave := state[1];
    }
  }
}
