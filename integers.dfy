/** Integer helpers shared by the health and shop models. */
module Integers {

  /** The magnitude of `x`, as `Math.Abs` on an integer in range. */
  function Abs(x: int): (r: int)
    ensures r >= 0 && (r == x || r == -x)
  {
    if x < 0 then -x else x
  }
}
