/**
 * The scalar, diagonal-only Kalman filter (`KalmanFilter` in
 * src/plugin/wave-sensor-algorithms.js, lines 251-305) and the pieces its
 * constructor and `predict` share with the two wave filters that extend it.
 *
 * The source's covariance is a `Matrix` whose `set` writes in place; here a
 * matrix is a value, so every `set` reassigns the field with the updated
 * matrix.  Reading `processNoise[i]` or `measurementNoise[0]` past the end of
 * the array gives `undefined` (and then NaN) in the source; the model asks its
 * callers for long enough arrays instead.
 */
module Kalman {
  import opened Matrices
  import opened Js

  /** The `options` object; a field that was not given is `None`. */
  datatype FilterOptions = FilterOptions(
    stateVector: Option<seq<real>>,
    processNoise: Option<seq<real>>,
    measurementNoise: Option<seq<real>>)

  /** `options.x || []`: any array, even an empty one, is kept; a missing one becomes []. */
  function OrEmpty(o: Option<seq<real>>): seq<real>
  {
    if o.Some? then o.value else []
  }

  /** The initial variance written on the diagonal (line 260). */
  const InitialVariance: real := 1000.0

  /** The constructor's covariance: n x n, `InitialVariance` on the diagonal, 0 elsewhere. */
  function InitialCovariance(n: nat): (m: Matrix)
    ensures m.Valid() && m.rows == n && m.cols == n
    ensures forall i, j :: 0 <= i < n && 0 <= j < n ==> m.Get(i, j) == if i == j then InitialVariance else 0.0
  {
    var f := (i: nat, j: nat) => if i == j then InitialVariance else 0.0;
    TableEntries(n, n, f);
    Table(n, n, f)
  }

  /** diag(q[0]·dt, ..., q[n-1]·dt): the process-noise matrix Q of the wave filters. */
  function NoiseCovariance(q: seq<real>, dt: real, n: nat): (m: Matrix)
    requires |q| >= n
    ensures m.Valid() && m.rows == n && m.cols == n
    ensures forall i, j :: 0 <= i < n && 0 <= j < n ==> m.Get(i, j) == if i == j then q[i] * dt else 0.0
  {
    var f := (i: nat, j: nat) => if i == j && i < n then q[i] * dt else 0.0;
    TableEntries(n, n, f);
    Table(n, n, f)
  }

  /** The base filter's predicted covariance: q[i]·dt added to each diagonal entry. */
  function DiagonalInflated(p: Matrix, q: seq<real>, dt: real): (m: Matrix)
    requires p.Valid() && p.rows == p.cols && |q| >= p.rows
    ensures m.Valid() && m.rows == p.rows && m.cols == p.rows
    ensures forall i, j :: 0 <= i < p.rows && 0 <= j < p.rows ==>
      m.Get(i, j) == if i == j then p.Get(i, i) + q[i] * dt else p.Get(i, j)
  {
    var f := (i: nat, j: nat) => if i < p.rows && j < p.rows then (if i == j then p.Get(i, i) + q[i] * dt else p.Get(i, j)) else 0.0;
    TableEntries(p.rows, p.rows, f);
    Table(p.rows, p.rows, f)
  }

  /** The scalar gain P00 / (P00 + R0) (lines 294-296). */
  function ScalarGain(p00: real, r0: real): real
    requires p00 + r0 != 0.0
  {
    p00 / (p00 + r0)
  }

  /** The corrected variance (1 - K)·P00 (line 303). */
  function CorrectedVariance(p00: real, r0: real): real
    requires p00 + r0 != 0.0
  {
    (1.0 - ScalarGain(p00, r0)) * p00
  }

  /** The corrected first state component s0 + K·(z - s0) (lines 299-300). */
  function ScalarCorrected(s0: real, z: real, gain: real): real
  {
    s0 + gain * (z - s0)
  }

  /** `new Matrix(n, 1, v)`: the values as a column. */
  function Column(v: seq<real>): (m: Matrix)
    ensures m.Valid() && m.rows == |v| && m.cols == 1 && m.data == v
    ensures forall i :: 0 <= i < |v| ==> m.Get(i, 0) == v[i]
  {
    TimesOne();
    Matrix(|v|, 1, v)
  }

  /** The matrix whose i-th row is rows[i]: a matrix built by `set`ting literal entries. */
  function FromRows(rows: seq<seq<real>>, cols: nat): (m: Matrix)
    requires forall i :: 0 <= i < |rows| ==> |rows[i]| == cols
    ensures m.Valid() && m.rows == |rows| && m.cols == cols
    ensures forall i, j :: 0 <= i < |rows| && 0 <= j < cols ==> m.Get(i, j) == rows[i][j]
  {
    var f := (i: nat, j: nat) => if i < |rows| && j < |rows[i]| then rows[i][j] else 0.0;
    TableEntries(|rows|, cols, f);
    Table(|rows|, cols, f)
  }

  lemma TimesOne()
    ensures forall n: nat :: Times(n, 1) == n
  {
    forall n: nat
      ensures Times(n, 1) == n
    {
      TimesOneAt(n);
    }
  }

  lemma {:induction false} TimesOneAt(n: nat)
    ensures Times(n, 1) == n
  {
    if n > 0 { TimesOneAt(n - 1); }
  }

  /** A one-column matrix is the column of its own buffer. */
  lemma ColumnOfData(m: Matrix)
    requires m.Valid() && m.cols == 1
    ensures m == Column(m.data)
  {
    TimesOne();
    Ext(m, Column(m.data));
  }

  /** When row i of a is the unit vector e_c, the partial sums pick out row c of b. */
  lemma {:induction false} RowColUnitRow(a: Matrix, b: Matrix, i: nat, j: nat, c: nat, k: nat)
    requires a.Valid() && b.Valid() && a.cols == b.rows && i < a.rows && j < b.cols && k <= a.cols && c < a.cols
    requires forall t :: 0 <= t < a.cols ==> a.Get(i, t) == if t == c then 1.0 else 0.0
    ensures RowCol(a, b, i, j, k) == if c < k then b.Get(c, j) else 0.0
  {
    if k > 0 {
      RowColUnitRow(a, b, i, j, c, k - 1);
      RowColStep(a, b, i, j, k);
      if k - 1 == c {
        assert a.Get(i, k - 1) == 1.0;
      } else {
        assert a.Get(i, k - 1) == 0.0;
      }
    }
  }

  /** When column j of b is the unit vector e_c, the partial sums pick out column c of a. */
  lemma {:induction false} RowColUnitColumn(a: Matrix, b: Matrix, i: nat, j: nat, c: nat, k: nat)
    requires a.Valid() && b.Valid() && a.cols == b.rows && i < a.rows && j < b.cols && k <= a.cols && c < b.rows
    requires forall t :: 0 <= t < b.rows ==> b.Get(t, j) == if t == c then 1.0 else 0.0
    ensures RowCol(a, b, i, j, k) == if c < k then a.Get(i, c) else 0.0
  {
    if k > 0 {
      RowColUnitColumn(a, b, i, j, c, k - 1);
      RowColStep(a, b, i, j, k);
      if k - 1 == c {
        assert b.Get(k - 1, j) == 1.0;
      } else {
        assert b.Get(k - 1, j) == 0.0;
      }
    }
  }

  /** The identity is a left unit of the product. */
  lemma IdentityLeft(p: Matrix)
    requires p.Valid()
    ensures Product(IdentityOf(p.rows), p) == p
  {
    var id := IdentityOf(p.rows);
    forall i, j | 0 <= i < p.rows && 0 <= j < p.cols
      ensures Product(id, p).Get(i, j) == p.Get(i, j)
    {
      RowColUnitRow(id, p, i, j, i, p.rows);
    }
    Ext(Product(id, p), p);
  }

  /**
   * Row-by-column sums are linear in the left factor's row.  Stated over an
   * arbitrary d holding the differences, so that the induction does not see
   * how Difference builds its buffer.
   */
  lemma {:induction false} RowColDifference(d: Matrix, a: Matrix, b: Matrix, c: Matrix, i: nat, j: nat, k: nat)
    requires a.Valid() && b.Valid() && c.Valid() && d.Valid()
    requires a.cols == c.rows && b.cols == c.rows && d.cols == c.rows
    requires i < a.rows && i < b.rows && i < d.rows && j < c.cols && k <= c.rows
    requires forall t :: 0 <= t < c.rows ==> d.Get(i, t) == a.Get(i, t) - b.Get(i, t)
    ensures RowCol(d, c, i, j, k) == RowCol(a, c, i, j, k) - RowCol(b, c, i, j, k)
  {
    if k > 0 {
      RowColDifference(d, a, b, c, i, j, k - 1);
      RowColStep(d, c, i, j, k);
      RowColStep(a, c, i, j, k);
      RowColStep(b, c, i, j, k);
      SubtractTerms(RowCol(d, c, i, j, k), RowCol(a, c, i, j, k - 1), RowCol(b, c, i, j, k - 1),
                    d.Get(i, k - 1), a.Get(i, k - 1), b.Get(i, k - 1), c.Get(k - 1, j));
    }
  }

  lemma SubtractTerms(s: real, p: real, q: real, dx: real, x: real, y: real, z: real)
    requires dx == x - y && s == (p - q) + dx * z
    ensures s == (p + x * z) - (q + y * z)
  {
  }

  /** The product distributes over a difference on the left. */
  lemma ProductDifferenceLeft(a: Matrix, b: Matrix, c: Matrix)
    requires a.Valid() && b.Valid() && c.Valid() && a.rows == b.rows && a.cols == b.cols && a.cols == c.rows
    ensures Product(Difference(a, b), c) == Difference(Product(a, c), Product(b, c))
  {
    forall i, j | 0 <= i < a.rows && 0 <= j < c.cols
      ensures Product(Difference(a, b), c).Get(i, j) == Difference(Product(a, c), Product(b, c)).Get(i, j)
    {
      RowColDifference(Difference(a, b), a, b, c, i, j, a.cols);
    }
    Ext(Product(Difference(a, b), c), Difference(Product(a, c), Product(b, c)));
  }

  /**
   * The covariance correction of both wave filters, (I - K·H)·P, is
   * P - K·(H·P): the prior covariance less the part the measurement explains.
   */
  lemma CorrectionSubtracts(k: Matrix, h: Matrix, p: Matrix)
    requires k.Valid() && h.Valid() && p.Valid()
    requires p.rows == p.cols && k.rows == p.rows && k.cols == h.rows && h.cols == p.rows
    ensures Product(Difference(IdentityOf(p.rows), Product(k, h)), p) == Difference(p, Product(k, Product(h, p)))
  {
    ProductDifferenceLeft(IdentityOf(p.rows), Product(k, h), p);
    IdentityLeft(p);
    ProductAssociative(k, h, p);
  }

  // ---------------------------------------------------------------------------
  // Properties
  // ---------------------------------------------------------------------------

  /** The base predict is the wave filters' `P + Q` with their Q = diag(q·dt). */
  lemma DiagonalInflatedIsNoiseSum(p: Matrix, q: seq<real>, dt: real)
    requires p.Valid() && p.rows == p.cols && |q| >= p.rows
    ensures DiagonalInflated(p, q, dt) == Sum(p, NoiseCovariance(q, dt, p.rows))
  {
    Ext(DiagonalInflated(p, q, dt), Sum(p, NoiseCovariance(q, dt, p.rows)));
  }

  /** The process-noise matrix is symmetric, so adding it keeps a covariance symmetric. */
  lemma NoiseCovarianceSymmetric(q: seq<real>, dt: real, n: nat)
    requires |q| >= n
    ensures Symmetric(NoiseCovariance(q, dt, n))
  {
  }

  /** The base predict keeps a symmetric covariance symmetric. */
  lemma DiagonalInflatedSymmetric(p: Matrix, q: seq<real>, dt: real)
    requires Symmetric(p) && |q| >= p.rows
    ensures Symmetric(DiagonalInflated(p, q, dt))
  {
    DiagonalInflatedIsNoiseSum(p, q, dt);
    NoiseCovarianceSymmetric(q, dt, p.rows);
    SumSymmetric(p, NoiseCovariance(q, dt, p.rows));
  }

  /** With P00 >= 0 and R0 > 0 the gain lies in [0, 1). */
  lemma ScalarGainBounds(p00: real, r0: real)
    requires p00 >= 0.0 && r0 > 0.0
    ensures 0.0 <= ScalarGain(p00, r0) < 1.0
  {
    var s := p00 + r0;
    var k := p00 / s;
    assert k * s == p00;
    if k < 0.0 {
      NegativeTimesPositive(k, s);
    }
    if k >= 1.0 {
      AtLeastOneTimesPositive(k, s);
    }
  }

  lemma NegativeTimesPositive(k: real, s: real)
    requires k < 0.0 && s > 0.0
    ensures k * s < 0.0
  {
  }

  lemma AtLeastOneTimesPositive(k: real, s: real)
    requires k >= 1.0 && s > 0.0
    ensures k * s >= s
  {
  }

  /** With P00 >= 0 and R0 > 0 the corrected variance (1 - K)·P00 stays in [0, P00]. */
  lemma ScalarVarianceShrinks(p00: real, r0: real)
    requires p00 >= 0.0 && r0 > 0.0
    ensures 0.0 <= CorrectedVariance(p00, r0) <= p00
  {
    ScalarGainBounds(p00, r0);
    FractionOf(1.0 - ScalarGain(p00, r0), p00);
  }

  lemma FractionOf(f: real, x: real)
    requires 0.0 <= f <= 1.0 && x >= 0.0
    ensures 0.0 <= f * x <= x
  {
    assert x - f * x == (1.0 - f) * x;
  }

  /** With P00 >= 0 and R0 > 0 the corrected s0 lies between the old s0 and the measurement. */
  lemma ScalarCorrectedBetween(s0: real, z: real, p00: real, r0: real)
    requires p00 >= 0.0 && r0 > 0.0
    ensures var c := ScalarCorrected(s0, z, ScalarGain(p00, r0));
      (s0 <= z ==> s0 <= c <= z) && (z <= s0 ==> z <= c <= s0)
  {
    ScalarGainBounds(p00, r0);
    CorrectedBetween(s0, z, ScalarGain(p00, r0));
  }

  lemma CorrectedBetween(s0: real, z: real, k: real)
    requires 0.0 <= k <= 1.0
    ensures var c := ScalarCorrected(s0, z, k);
      (s0 <= z ==> s0 <= c <= z) && (z <= s0 ==> z <= c <= s0)
  {
    if s0 <= z {
      CorrectedRising(s0, z, k);
    }
    if z <= s0 {
      CorrectedFalling(s0, z, k);
    }
  }

  lemma CorrectedRising(s0: real, z: real, k: real)
    requires 0.0 <= k <= 1.0 && s0 <= z
    ensures s0 <= ScalarCorrected(s0, z, k) <= z
  {
    var d := z - s0;
    FractionOf(k, d);
    assert ScalarCorrected(s0, z, k) == s0 + k * d;
  }

  lemma CorrectedFalling(s0: real, z: real, k: real)
    requires 0.0 <= k <= 1.0 && z <= s0
    ensures z <= ScalarCorrected(s0, z, k) <= s0
  {
    var d := s0 - z;
    FractionOf(k, d);
    assert ScalarCorrected(s0, z, k) == s0 - k * d;
  }

  // ---------------------------------------------------------------------------
  // Construction steps shared with the wave filters
  // ---------------------------------------------------------------------------

  /** Lines 258-261: an identity matrix whose diagonal is overwritten with 1000. */
  method NewCovariance(n: nat) returns (m: Matrix)
    ensures m == InitialCovariance(n)
  {
    m := Identity(n);
    for i := 0 to n
      invariant m.Valid() && m.rows == n && m.cols == n
      invariant forall p, q :: 0 <= p < n && 0 <= q < n ==>
        m.Get(p, q) == if p == q then (if p < i then InitialVariance else 1.0) else 0.0
    {
      SetFrame(m, i, i, InitialVariance);
      m := m.Set(i, i, InitialVariance);
    }
    Ext(m, InitialCovariance(n));
  }

  /**
   * The wave filters' Q (lines 422-425 and 512-515): an identity matrix whose
   * diagonal is overwritten with q[i]·dt.
   */
  method ProcessNoiseMatrix(q: seq<real>, dt: real, n: nat) returns (m: Matrix)
    requires |q| >= n
    ensures m == NoiseCovariance(q, dt, n)
  {
    ghost var noise := NoiseCovariance(q, dt, n);
    m := Identity(n);
    for i := 0 to n
      invariant m.Valid() && m.rows == n && m.cols == n
      invariant forall p, r :: 0 <= p < n && 0 <= r < n ==>
        m.Get(p, r) == if p == r && p >= i then 1.0 else noise.Get(p, r)
    {
      var v := q[i] * dt;
      assert v == noise.Get(i, i);
      SetFrame(m, i, i, v);
      m := m.Set(i, i, v);
    }
    Ext(m, noise);
  }

  /**
   * The wave filters' state loop (lines 453-455 and 545-547): column u added
   * to s component by component.
   */
  method AddColumn(s: seq<real>, u: Matrix) returns (r: seq<real>)
    requires u.Valid() && u.rows == |s| && u.cols == 1
    ensures |r| == |s|
    ensures forall t :: 0 <= t < |s| ==> r[t] == s[t] + u.Get(t, 0)
  {
    r := s;
    for i := 0 to |s|
      invariant |r| == |s|
      invariant forall t :: 0 <= t < |s| ==> r[t] == if t < i then s[t] + u.Get(t, 0) else s[t]
    {
      r := r[i := r[i] + u.Get(i, 0)];
    }
  }

  // ---------------------------------------------------------------------------
  // The filter object
  // ---------------------------------------------------------------------------

  class KalmanFilter {
    var state: seq<real>
    /** Set once by the constructor and only read afterwards. */
    const processNoise: seq<real>
    const measurementNoise: seq<real>
    var covariance: Matrix

    /** The covariance is a valid n x n matrix for the n-component state. */
    predicate Valid()
      reads this
    {
      covariance.Valid() && covariance.rows == |state| && covariance.cols == |state|
    }

    /** `new KalmanFilter(options)` (lines 252-262). */
    constructor (options: FilterOptions)
      ensures Valid()
      ensures state == OrEmpty(options.stateVector)
      ensures processNoise == OrEmpty(options.processNoise)
      ensures measurementNoise == OrEmpty(options.measurementNoise)
      ensures covariance == InitialCovariance(|state|)
    {
      var s := OrEmpty(options.stateVector);
      var cov := NewCovariance(|s|);
      state := s;
      processNoise := OrEmpty(options.processNoise);
      measurementNoise := OrEmpty(options.measurementNoise);
      covariance := cov;
    }

    /** `predict(deltaT)` (lines 274-287): only the covariance's diagonal changes. */
    method Predict(deltaT: real)
      requires Valid() && |processNoise| >= |state|
      modifies this
      ensures Valid()
      ensures state == old(state)
      ensures covariance == DiagonalInflated(old(covariance), processNoise, deltaT)
    {
      var n := |state|;
      for i := 0 to n
        invariant state == old(state)
        invariant covariance.Valid() && covariance.rows == n && covariance.cols == n
        invariant forall p, q :: 0 <= p < n && 0 <= q < n ==>
          covariance.Get(p, q) == if p == q && p < i then old(covariance).Get(p, p) + processNoise[p] * deltaT
                                  else old(covariance).Get(p, q)
      {
        var v := covariance.Get(i, i) + processNoise[i] * deltaT;
        SetFrame(covariance, i, i, v);
        covariance := covariance.Set(i, i, v);
      }
      Ext(covariance, DiagonalInflated(old(covariance), processNoise, deltaT));
    }

    /**
     * `updateStep(measurement)` (lines 289-304): only state[0] and the
     * covariance's (0, 0) entry change.
     */
    method UpdateStep(measurement: real)
      requires Valid() && |state| >= 1 && |measurementNoise| >= 1
      requires covariance.Get(0, 0) + measurementNoise[0] != 0.0
      modifies this
      ensures Valid()
      ensures state == old(state)[0 := ScalarCorrected(old(state)[0], measurement, ScalarGain(old(covariance).Get(0, 0), measurementNoise[0]))]
      ensures covariance == old(covariance).Set(0, 0, CorrectedVariance(old(covariance).Get(0, 0), measurementNoise[0]))
    {
      var innovationCovariance := covariance.Get(0, 0) + measurementNoise[0];
      var gain := covariance.Get(0, 0) / innovationCovariance;
      assert gain == ScalarGain(covariance.Get(0, 0), measurementNoise[0]);
      var innovation := measurement - state[0];
      var corrected := state[0] + gain * innovation;
      assert corrected == ScalarCorrected(state[0], measurement, gain);
      state := state[0 := corrected];
      var variance := (1.0 - gain) * covariance.Get(0, 0);
      assert variance == CorrectedVariance(covariance.Get(0, 0), measurementNoise[0]);
      covariance := covariance.Set(0, 0, variance);
    }

    /** `update(measurement, deltaT)` (lines 264-272): predict, correct, return state[0]. */
    method Update(measurement: real, deltaT: real) returns (r: real)
      requires Valid() && |state| >= 1 && |processNoise| >= |state| && |measurementNoise| >= 1
      requires covariance.Get(0, 0) + processNoise[0] * deltaT + measurementNoise[0] != 0.0
      modifies this
      ensures Valid()
      ensures |state| == old(|state|)
      ensures var predicted := DiagonalInflated(old(covariance), processNoise, deltaT);
        state == old(state)[0 := ScalarCorrected(old(state)[0], measurement, ScalarGain(predicted.Get(0, 0), measurementNoise[0]))] &&
        covariance == predicted.Set(0, 0, CorrectedVariance(predicted.Get(0, 0), measurementNoise[0]))
      ensures r == state[0]
    {
      Predict(deltaT);
      UpdateStep(measurement);
      r := state[0];
    }
  }
}
