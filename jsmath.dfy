/** The parts of JavaScript's `Math` object the model uses, on mathematical reals. */
module JsMath {

  /** `Math.min(x, y)` */
  function Min(x: real, y: real): (r: real)
    ensures r <= x && r <= y
    ensures r == x || r == y
  {
    if x <= y then x else y
  }

  /** `Math.max(x, y)` */
  function Max(x: real, y: real): (r: real)
    ensures r >= x && r >= y
    ensures r == x || r == y
  {
    if x >= y then x else y
  }
}
