/**
 * What the model takes from the JavaScript runtime.
 *
 * Numbers are idealised as Dafny `real`.  An absent option property
 * (`undefined`) is `None`.  The `Math` functions the source calls
 * (`sqrt`, `atan2`, `asin`, `sin`, `cos`) are not given a definition: they
 * travel as parameters of the operations that call them, so every statement
 * about those operations holds whatever these functions compute.
 */
module Js {

  datatype Option<T> = None | Some(value: T)

  /** `Math.PI`, the double nearest to pi. */
  const Pi: real := 3.141592653589793

  /** The `Math` functions the driver code calls. */
  datatype MathFunctions = MathFunctions(
    sqrt: real -> real,
    atan2: (real, real) -> real,
    asin: real -> real,
    sin: real -> real,
    cos: real -> real)

  /** What the `Math` functions give at the origin: sin 0 = 0, cos 0 = 1, atan2(0, 1) = 0, asin 0 = 0. */
  predicate FixesOrigin(math: MathFunctions)
  {
    math.sin(0.0) == 0.0 && math.cos(0.0) == 1.0 && math.atan2(0.0, 1.0) == 0.0 && math.asin(0.0) == 0.0
  }

  /** `Math.abs`. */
  function Abs(v: real): real
  {
    if v < 0.0 then -v else v
  }

  /** `Math.min(a, b)` and `Math.max(a, b)`. */
  function Min(a: real, b: real): real
  {
    if a <= b then a else b
  }

  function Max(a: real, b: real): real
  {
    if a >= b then a else b
  }

  /** `(now - last) / 1000`: the seconds between two `Date.now()` readings, which are milliseconds. */
  function DeltaSeconds(now: int, last: int): (deltaT: real)
    ensures deltaT * 1000.0 == (now - last) as real
    ensures deltaT > 0.0 <==> now > last
    ensures deltaT == 0.0 <==> now == last
  {
    (now - last) as real / 1000.0
  }
}
