/** Integer helpers shared by the screens' countdowns and the dashboard's conversions. */
module Numbers {

  /** `Math.max` on integers. */
  function Max(a: int, b: int): (r: int)
    ensures r >= a && r >= b
    ensures r == a || r == b
  {
    if a >= b then a else b
  }
}
