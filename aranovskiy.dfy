/**
 * The frequency tracker (`AranovskiyFilter` in
 * src/plugin/wave-sensor-algorithms.js, lines 307-368).
 *
 * The object keeps a two-sample delay line of normalised inputs (x1, x2) and
 * filter outputs (y1, y2) and a frequency estimate.  `update` runs one step
 * of a discretised second-order section, shifts the delay line, corrects the
 * frequency and clamps it.  The delay line is shifted before the differences
 * dx and dy are taken, so both are 0 and the correction always vanishes: the
 * model keeps that order, and `StepVanishesAfterShift` and `FrequencyFrozen`
 * state what follows from it.
 */
module Aranovskiy {
  import opened Js

  /** Learning rate of the frequency correction (line 351). */
  const Gamma: real := 0.01

  /** The `options` object of the constructor; a property not given is `None`. */
  datatype FrequencyOptions = FrequencyOptions(
    scale: Option<real>,
    freqGuess: Option<real>,
    freqLower: Option<real>,
    freqUpper: Option<real>)

  /**
   * `options.v || fallback` for a numeric property: an absent or zero value
   * takes the fallback.  With a non-zero fallback the result is never 0.
   */
  function OrDefault(o: Option<real>, fallback: real): (r: real)
    ensures o.Some? && o.value != 0.0 ==> r == o.value
    ensures (o.None? || o.value == 0.0) ==> r == fallback
    ensures fallback != 0.0 ==> r != 0.0
  {
    if o.Some? && o.value != 0.0 then o.value else fallback
  }

  /**
   * `Math.max(lower, Math.min(upper, f))` (lines 358-361): inside the bounds
   * when they are ordered, f itself when it already lies between them, and
   * `lower` when the bounds are crossed.
   */
  function Clamp(lower: real, upper: real, f: real): (r: real)
    ensures lower <= upper ==> lower <= r <= upper
    ensures lower <= f <= upper ==> r == f
    ensures upper < lower ==> r == lower
    ensures r == lower || r == upper || r == f
  {
    Max(lower, Min(upper, f))
  }

  /** Clamping twice is clamping once. */
  lemma ClampIdempotent(lower: real, upper: real, f: real)
    ensures Clamp(lower, upper, Clamp(lower, upper, f)) == Clamp(lower, upper, f)
  {
  }

  /** omega² for omega = 2·pi·frequency (lines 330-331). */
  function Omega2(frequency: real): real
  {
    (2.0 * Pi * frequency) * (2.0 * Pi * frequency)
  }

  lemma Omega2NonNegative(frequency: real)
    ensures Omega2(frequency) >= 0.0
  {
  }

  /** omega²·dt² is never negative, so the coefficient `a` of line 334 is well defined. */
  lemma CoefficientNonNegative(omega2: real, deltaT: real)
    requires omega2 >= 0.0
    ensures omega2 * deltaT * deltaT >= 0.0
  {
    assert deltaT * deltaT >= 0.0;
    assert omega2 * deltaT * deltaT == omega2 * (deltaT * deltaT);
  }

  /**
   * The output y of the second-order section (lines 329-338) for input x, at
   * the given frequency and step, with delay line x1, x2, y1, y2.  It solves
   * the implicit difference equation y + b·(y + y1 + y2) = x + 2·x1 + x2 with
   * b = omega²·dt².
   */
  function Response(frequency: real, deltaT: real, x: real, x1: real, x2: real, y1: real, y2: real): (y: real)
    ensures var b := Omega2(frequency) * deltaT * deltaT;
      y + b * (y + y1 + y2) == x + 2.0 * x1 + x2
  {
    var omega2 := Omega2(frequency);
    Omega2NonNegative(frequency);
    CoefficientNonNegative(omega2, deltaT);
    var a := 1.0 / (1.0 + omega2 * deltaT * deltaT);
    var b := omega2 * deltaT * deltaT;
    ResponseSolves(a, b, x + 2.0 * x1 + x2, y1 + y2);
    a * (x + 2.0 * x1 + x2 - b * (y1 + y2))
  }

  lemma ResponseSolves(a: real, b: real, u: real, v: real)
    requires b >= 0.0 && a == 1.0 / (1.0 + b)
    ensures var y := a * (u - b * v); y + b * (y + v) == u
  {
    var c := u - b * v;
    var y := a * c;
    assert (1.0 + b) * a == 1.0;
    calc {
      y + b * (y + v);
      (1.0 + b) * y + b * v;
      (1.0 + b) * (a * c) + b * v;
      { assert (1.0 + b) * (a * c) == ((1.0 + b) * a) * c; }
      c + b * v;
      u;
    }
  }

  /**
   * The frequency correction of lines 347-352, from the new sample (x, y) and
   * the delay line's first slots x1, y1 as they are when it is computed.
   */
  function FrequencyStep(x: real, y: real, x1: real, y1: real, deltaT: real): real
    requires deltaT != 0.0 && x * x + y * y != 0.0
  {
    var dx := (x - x1) / deltaT;
    var dy := (y - y1) / deltaT;
    (Gamma * (x * dy - y * dx)) / (x * x + y * y)
  }

  /** With the delay line already shifted (x1 = x, y1 = y) the correction is 0. */
  lemma StepVanishesAfterShift(x: real, y: real, deltaT: real)
    requires deltaT != 0.0 && x * x + y * y != 0.0
    ensures FrequencyStep(x, y, x, y, deltaT) == 0.0
  {
    assert (x - x) / deltaT == 0.0 && (y - y) / deltaT == 0.0;
  }

  /** x² + y², the squared magnitude of a sample (lines 352 and 364). */
  function Energy(x: real, y: real): real
  {
    x * x + y * y
  }

  /** The frequency after n calls of `update`, each of which only clamps (see `AranovskiyFilter.Update`). */
  function FrequencyAfter(lower: real, upper: real, f: real, n: nat): real
  {
    if n == 0 then f else Clamp(lower, upper, FrequencyAfter(lower, upper, f, n - 1))
  }

  /**
   * The estimate never moves after the first update: every later value is the
   * initial frequency clamped once, and so is the initial frequency itself
   * when it lies within the bounds.
   */
  lemma {:induction false} FrequencyFrozen(lower: real, upper: real, f: real, n: nat)
    requires n >= 1
    ensures FrequencyAfter(lower, upper, f, n) == Clamp(lower, upper, f)
    ensures lower <= f <= upper ==> FrequencyAfter(lower, upper, f, n) == f
  {
    if n > 1 {
      FrequencyFrozen(lower, upper, f, n - 1);
      ClampIdempotent(lower, upper, f);
    }
  }

  class AranovskiyFilter {
    /** Set once by the constructor and only read afterwards. */
    const scale: real
    const freqGuess: real
    const freqLower: real
    const freqUpper: real
    var frequency: real
    var phase: real
    var amplitude: real
    var x1: real
    var x2: real
    var y1: real
    var y2: real

    /** The divisor of line 327 is never 0. */
    predicate Valid()
    {
      scale != 0.0
    }

    /** `new AranovskiyFilter(options)` (lines 309-323). */
    constructor (options: FrequencyOptions)
      ensures Valid()
      ensures scale == OrDefault(options.scale, 1.0) && freqGuess == OrDefault(options.freqGuess, 0.25)
      ensures freqLower == OrDefault(options.freqLower, 0.05) && freqUpper == OrDefault(options.freqUpper, 1.0)
      ensures frequency == freqGuess && phase == 0.0 && amplitude == 0.0
      ensures x1 == 0.0 && x2 == 0.0 && y1 == 0.0 && y2 == 0.0
    {
      scale := OrDefault(options.scale, 1.0);
      freqGuess := OrDefault(options.freqGuess, 0.25);
      freqLower := OrDefault(options.freqLower, 0.05);
      freqUpper := OrDefault(options.freqUpper, 1.0);
      frequency := OrDefault(options.freqGuess, 0.25);
      phase := 0.0;
      amplitude := 0.0;
      x1 := 0.0;
      x2 := 0.0;
      y1 := 0.0;
      y2 := 0.0;
    }

    /** The sample (x, y) that `update(measurement, deltaT)` would produce from the current state. */
    function Sample(measurement: real, deltaT: real): (real, real)
      requires Valid()
      reads this
    {
      var x := measurement / scale;
      (x, Response(frequency, deltaT, x, x1, x2, y1, y2))
    }

    /**
     * `update` divides by x² + y² (line 352); when the sample is (0, 0) the
     * source computes 0/0, so the model requires a non-zero sample.
     */
    predicate Excited(measurement: real, deltaT: real)
      requires Valid()
      reads this
    {
      var (x, y) := Sample(measurement, deltaT);
      Energy(x, y) != 0.0
    }

    /** The state `update(measurement, deltaT)` leaves behind, against the state before it. */
    twostate predicate Advanced(measurement: real, deltaT: real, math: MathFunctions)
      reads this
    {
      Valid() &&
      var x := measurement / scale;
      var y := Response(old(frequency), deltaT, x, old(x1), old(x2), old(y1), old(y2));
      x2 == old(x1) && x1 == x && y2 == old(y1) && y1 == y &&
      frequency == Clamp(freqLower, freqUpper, old(frequency)) &&
      amplitude == math.sqrt(Energy(x, y)) && phase == math.atan2(y, x)
    }

    /**
     * `update(measurement, deltaT)` (lines 325-368): the delay line shifts
     * in the new sample and the frequency is only clamped.
     */
    method Update(measurement: real, deltaT: real, math: MathFunctions) returns (r: real)
      requires Valid() && deltaT != 0.0 && Excited(measurement, deltaT)
      modifies this
      ensures Advanced(measurement, deltaT, math)
      ensures frequency == Clamp(freqLower, freqUpper, old(frequency))
      ensures r == frequency
    {
      var x := measurement / scale;
      var omega := 2.0 * Pi * frequency;
      var omega2 := omega * omega;
      assert omega2 == Omega2(frequency);
      CoefficientNonNegative(omega2, deltaT);
      var a := 1.0 / (1.0 + omega2 * deltaT * deltaT);
      var b := omega2 * deltaT * deltaT;
      var y := a * (x + 2.0 * x1 + x2 - b * (y1 + y2));
      assert y == Response(frequency, deltaT, x, x1, x2, y1, y2);
      assert Energy(x, y) == x * x + y * y != 0.0;
      x2 := x1;
      x1 := x;
      y2 := y1;
      y1 := y;
      var dx := (x - x1) / deltaT;
      var dy := (y - y1) / deltaT;
      assert dx == 0.0 && dy == 0.0;
      var freqUpdate := (Gamma * (x * dy - y * dx)) / (x * x + y * y);
      assert freqUpdate == 0.0;
      frequency := frequency + freqUpdate * deltaT;
      frequency := Max(freqLower, Min(freqUpper, frequency));
      amplitude := math.sqrt(x * x + y * y);
      phase := math.atan2(y, x);
      r := frequency;
    }
  }
}
