/** The few pieces of JavaScript's `Math` object that the agent relies on, over `real`. */
module JsMath {

  /** `Math.PI`, written as the shortest decimal that names the same double. */
  const Pi: real := 3.141592653589793

  /** `Math.round`: the integer nearest to `x`, halves rounded up (towards +infinity). */
  function Round(x: real): (r: int)
    ensures x - 0.5 < r as real <= x + 0.5
  {
    (x + 0.5).Floor
  }

  /** `Math.max` of two numbers. */
  function Max(a: real, b: real): (r: real)
    ensures r >= a && r >= b && (r == a || r == b)
  {
    if a >= b then a else b
  }

  /** `Math.min` of two numbers. */
  function Min(a: real, b: real): (r: real)
    ensures r <= a && r <= b && (r == a || r == b)
  {
    if a <= b then a else b
  }

  /**
   `Math.max` where both operands are whole numbers. Dafny has no overloading, so
   the integer window arithmetic of `EntityRenderer` (the rounded window corners
   and extents) uses this copy of `Max`.
   */
  function IntMax(a: int, b: int): (r: int)
    ensures r >= a && r >= b && (r == a || r == b)
  {
    if a >= b then a else b
  }

  /** `Math.min` where both operands are whole numbers: the integer copy of `Min`, for the same window arithmetic. */
  function IntMin(a: int, b: int): (r: int)
    ensures r <= a && r <= b && (r == a || r == b)
  {
    if a <= b then a else b
  }

  /** `Math.cos` and `Math.sin`, which the model takes as inputs rather than computes. */
  datatype Trig = Trig(cos: real -> real, sin: real -> real)

  /** The one identity of the trigonometric functions the model uses. */
  ghost predicate Pythagorean(t: Trig) {
    forall a :: t.cos(a) * t.cos(a) + t.sin(a) * t.sin(a) == 1.0
  }
}
