/**
 * Attitude quaternions (`Quaternion` in src/plugin/wave-sensor-algorithms.js,
 * lines 184-248).
 *
 * `Quat` is the quaternion as a value; `Quaternion` is the source's mutable
 * object, whose `Normalize` divides its own fields in place.  `Math.sqrt` is a
 * parameter: the lemmas that need its meaning assume `IsSqrt`.  The Euler-angle
 * conversions (`toEuler`, `fromEuler`) are modelled over the `Math` functions
 * they call, which are parameters.
 */
module Quaternions {
  import opened Js

  datatype Quat = Quat(w: real, x: real, y: real, z: real)

  /** The default-constructed quaternion (1, 0, 0, 0) (constructor defaults, line 185). */
  const One: Quat := Quat(1.0, 0.0, 0.0, 0.0)

  /** The Hamilton product `p.multiply(q)` (lines 206-213). */
  function Hamilton(p: Quat, q: Quat): Quat
  {
    Quat(p.w * q.w - p.x * q.x - p.y * q.y - p.z * q.z,
         p.w * q.x + p.x * q.w + p.y * q.z - p.z * q.y,
         p.w * q.y - p.x * q.z + p.y * q.w + p.z * q.x,
         p.w * q.z + p.x * q.y - p.y * q.x + p.z * q.w)
  }

  /** `q.conjugate()` (lines 215-217): conjugation keeps the norm. */
  function Conj(q: Quat): (r: Quat)
    ensures NormSq(r) == NormSq(q)
  {
    Quat(q.w, -q.x, -q.y, -q.z)
  }

  /** The squared norm, the argument of `Math.sqrt` in `normalize` (lines 193-195). */
  function NormSq(q: Quat): real
  {
    q.w * q.w + q.x * q.x + q.y * q.y + q.z * q.z
  }

  /** The squared norm is non-negative and vanishes only at the zero quaternion. */
  lemma NormSqZeroIff(q: Quat)
    ensures NormSq(q) >= 0.0
    ensures NormSq(q) == 0.0 <==> q == Quat(0.0, 0.0, 0.0, 0.0)
  {
    NormSqNonNegative(q);
    if NormSq(q) == 0.0 {
      ZeroNormIsZero(q);
    }
  }

  lemma NormSqNonNegative(q: Quat)
    ensures NormSq(q) >= 0.0
  {
  }

  lemma ZeroNormIsZero(q: Quat)
    requires NormSq(q) == 0.0
    ensures q == Quat(0.0, 0.0, 0.0, 0.0)
  {
    ZeroNormSquares(q);
    SquareZero(q.w);
    SquareZero(q.x);
    SquareZero(q.y);
    SquareZero(q.z);
  }

  /** Four non-negative squares summing to 0 are each 0. */
  lemma ZeroNormSquares(q: Quat)
    requires NormSq(q) == 0.0
    ensures q.w * q.w == 0.0 && q.x * q.x == 0.0 && q.y * q.y == 0.0 && q.z * q.z == 0.0
  {
    assert q.w * q.w >= 0.0 && q.x * q.x >= 0.0 && q.y * q.y >= 0.0 && q.z * q.z >= 0.0;
  }

  lemma SquareZero(v: real)
    requires v * v == 0.0
    ensures v == 0.0
  {
    ZeroProduct(v, v);
  }

  /** `sqrt` behaves as `Math.sqrt` on the non-negative reals. */
  ghost predicate IsSqrt(sqrt: real -> real)
  {
    forall v :: 0.0 <= v ==> 0.0 <= sqrt(v) && sqrt(v) * sqrt(v) == v
  }

  /**
   * The value `normalize` leaves behind (lines 192-204): q divided by its norm,
   * or q itself when the norm is 0.
   */
  function Normalized(q: Quat, sqrt: real -> real): Quat
  {
    var norm := sqrt(NormSq(q));
    if norm == 0.0 then q else Quat(q.w / norm, q.x / norm, q.y / norm, q.z / norm)
  }

  /** Roll, pitch and yaw in radians. */
  datatype Euler = Euler(roll: real, pitch: real, yaw: real)

  /** `q.toEuler()` (lines 219-231). */
  function ToEuler(q: Quat, math: MathFunctions): Euler
  {
    Euler(math.atan2(2.0 * (q.w * q.x + q.y * q.z), 1.0 - 2.0 * (q.x * q.x + q.y * q.y)),
          math.asin(2.0 * (q.w * q.y - q.z * q.x)),
          math.atan2(2.0 * (q.w * q.z + q.x * q.y), 1.0 - 2.0 * (q.y * q.y + q.z * q.z)))
  }

  /** `Quaternion.fromEuler(roll, pitch, yaw)` (lines 233-247). */
  function FromEuler(roll: real, pitch: real, yaw: real, math: MathFunctions): Quat
  {
    var cr := math.cos(roll / 2.0);
    var sr := math.sin(roll / 2.0);
    var cp := math.cos(pitch / 2.0);
    var sp := math.sin(pitch / 2.0);
    var cy := math.cos(yaw / 2.0);
    var sy := math.sin(yaw / 2.0);
    Quat(cr * cp * cy + sr * sp * sy,
         sr * cp * cy - cr * sp * sy,
         cr * sp * cy + sr * cp * sy,
         cr * cp * sy - sr * sp * cy)
  }

  // ---------------------------------------------------------------------------
  // Properties
  // ---------------------------------------------------------------------------

  /** The default quaternion is a two-sided unit of the Hamilton product. */
  lemma OneIsUnit(q: Quat)
    ensures Hamilton(One, q) == q && Hamilton(q, One) == q
  {
  }

  /** Conjugation negates the vector part, keeps the scalar part, and undoes itself. */
  lemma ConjInvolution(q: Quat)
    ensures Conj(q).w == q.w && Conj(q).x == -q.x && Conj(q).y == -q.y && Conj(q).z == -q.z
    ensures Conj(Conj(q)) == q
  {
  }

  /** q times its conjugate is the real quaternion of q's squared norm. */
  lemma ConjProduct(q: Quat)
    ensures Hamilton(q, Conj(q)) == Quat(NormSq(q), 0.0, 0.0, 0.0)
    ensures Hamilton(Conj(q), q) == Quat(NormSq(q), 0.0, 0.0, 0.0)
  {
  }

  /** The level attitude and the zero angles correspond to each other. */
  lemma LevelRoundTrip(math: MathFunctions)
    requires FixesOrigin(math)
    ensures FromEuler(0.0, 0.0, 0.0, math) == One
    ensures ToEuler(One, math) == Euler(0.0, 0.0, 0.0)
  {
    assert 0.0 / 2.0 == 0.0;
  }

  /** A zero quaternion is returned unchanged, whatever `sqrt` is. */
  lemma NormalizeZero(sqrt: real -> real)
    ensures Normalized(Quat(0.0, 0.0, 0.0, 0.0), sqrt) == Quat(0.0, 0.0, 0.0, 0.0)
  {
    var norm := sqrt(NormSq(Quat(0.0, 0.0, 0.0, 0.0)));
    if norm != 0.0 {
      ZeroOver(norm);
    }
  }

  lemma ZeroOver(d: real)
    requires d != 0.0
    ensures 0.0 / d == 0.0
  {
  }

  /** Normalizing a non-zero quaternion gives a unit quaternion. */
  lemma NormalizedIsUnit(q: Quat, sqrt: real -> real)
    requires IsSqrt(sqrt) && q != Quat(0.0, 0.0, 0.0, 0.0)
    ensures NormSq(Normalized(q, sqrt)) == 1.0
  {
    var n2 := NormSq(q);
    NormSqZeroIff(q);
    var norm := sqrt(n2);
    assert norm * norm == n2;
    var r := Normalized(q, sqrt);
    assert norm != 0.0;
    assert r == Quat(q.w / norm, q.x / norm, q.y / norm, q.z / norm);
    DivSquare(q.w, norm);
    DivSquare(q.x, norm);
    DivSquare(q.y, norm);
    DivSquare(q.z, norm);
    calc {
      NormSq(r);
      (q.w * q.w) / (norm * norm) + (q.x * q.x) / (norm * norm) + (q.y * q.y) / (norm * norm) + (q.z * q.z) / (norm * norm);
      n2 / (norm * norm);
      1.0;
    }
  }

  lemma DivSquare(v: real, d: real)
    requires d != 0.0
    ensures (v / d) * (v / d) == (v * v) / (d * d)
  {
    var q := v / d;
    assert q * d == v;
    assert (q * q) * (d * d) == (q * d) * (q * d);
    if d * d == 0.0 {
      ZeroProduct(d, d);
    }
  }

  /** Normalizing twice is normalizing once. */
  lemma NormalizeIdempotent(q: Quat, sqrt: real -> real)
    requires IsSqrt(sqrt)
    ensures Normalized(Normalized(q, sqrt), sqrt) == Normalized(q, sqrt)
  {
    if q != Quat(0.0, 0.0, 0.0, 0.0) {
      NormalizedIsUnit(q, sqrt);
      var s := sqrt(1.0);
      assert 0.0 <= s && s * s == 1.0;
      SqrtOne(s);
    }
  }

  lemma SqrtOne(s: real)
    requires 0.0 <= s && s * s == 1.0
    ensures s == 1.0
  {
    assert (s - 1.0) * (s + 1.0) == s * s - 1.0;
    ZeroProduct(s - 1.0, s + 1.0);
  }

  lemma ZeroProduct(a: real, b: real)
    requires a * b == 0.0
    ensures a == 0.0 || b == 0.0
  {
  }

  // ---------------------------------------------------------------------------
  // The source's mutable object
  // ---------------------------------------------------------------------------

  class Quaternion {
    var w: real
    var x: real
    var y: real
    var z: real

    function Value(): Quat
      reads this
    {
      Quat(w, x, y, z)
    }

    /** `new Quaternion(w, x, y, z)` (lines 185-190). */
    constructor (w: real, x: real, y: real, z: real)
      ensures Value() == Quat(w, x, y, z)
    {
      this.w := w;
      this.x := x;
      this.y := y;
      this.z := z;
    }

    /** `new Quaternion()`: every argument left at its default. */
    constructor Default()
      ensures Value() == One
    {
      w := 1.0;
      x := 0.0;
      y := 0.0;
      z := 0.0;
    }

    /** `normalize()` (lines 192-204): divides the fields in place and returns the object itself. */
    method Normalize(sqrt: real -> real) returns (self: Quaternion)
      modifies this
      ensures self == this
      ensures Value() == Normalized(old(Value()), sqrt)
    {
      var norm := sqrt(NormSq(Value()));
      if norm == 0.0 {
        return this;
      }
      w := w / norm;
      x := x / norm;
      y := y / norm;
      z := z / norm;
      return this;
    }

    /** `multiply(other)` (lines 206-213): a fresh quaternion holding the Hamilton product. */
    method Multiply(other: Quaternion) returns (r: Quaternion)
      ensures fresh(r)
      ensures r.Value() == Hamilton(Value(), other.Value())
    {
      var product := Hamilton(Value(), other.Value());
      r := new Quaternion(product.w, product.x, product.y, product.z);
    }

    /** `Quaternion.fromEuler(roll, pitch, yaw)` (lines 233-247): a fresh quaternion for the angles. */
    static method FromEulerAngles(roll: real, pitch: real, yaw: real, math: MathFunctions) returns (r: Quaternion)
      ensures fresh(r)
      ensures r.Value() == FromEuler(roll, pitch, yaw, math)
    {
      var q := FromEuler(roll, pitch, yaw, math);
      r := new Quaternion(q.w, q.x, q.y, q.z);
    }

    /** `conjugate()` (lines 215-217). */
    method Conjugate() returns (r: Quaternion)
      ensures fresh(r)
      ensures r.Value() == Conj(Value())
    {
      r := new Quaternion(w, -x, -y, -z);
    }
  }
}
