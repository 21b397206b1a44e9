/** The few `Math` functions the title renderer uses, over exact reals and integers. */
module JsMath {

  function Min(a: real, b: real): real { if a <= b then a else b }

  function Max(a: real, b: real): real { if a >= b then a else b }

  function MinInt(a: int, b: int): int { if a <= b then a else b }

  /** `Math.min(Math.max(x, lo), hi)`: the clamp the renderer writes out inline. */
  function Clamp(x: real, lo: real, hi: real): (r: real)
    requires lo <= hi
    ensures lo <= r <= hi
    ensures lo <= x <= hi ==> r == x
  {
    Min(Max(x, lo), hi)
  }

  /**
   * `Math.round(x)`: the integer nearest to `x`, halves rounded towards
   * positive infinity (so `Round(-2.5) == -2` and `Round(2.5) == 3`).
   */
  function Round(x: real): (r: int)
    ensures r as real - 0.5 <= x < r as real + 0.5
  {
    (x + 0.5).Floor
  }
}
