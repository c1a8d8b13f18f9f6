/** Numbers as JavaScript treats them, over the reals. */
module JsMath {
  /** `Math.round`: to the nearest integer, halves upwards. */
  function RoundHalfUp(x: real): (r: int)
    ensures x - 0.5 < r as real <= x + 0.5
  {
    (x + 0.5).Floor
  }
}
