/** The JavaScript number operations the services rely on, over exact reals. */
module JsMath {

  /** `Math.round`: the nearest integer, halves toward positive infinity. */
  function Round(x: real): (r: int)
    ensures r as real - 0.5 <= x < r as real + 0.5
  {
    (x + 0.5).Floor
  }

  lemma RoundIsMonotone(x: real, y: real)
    requires x <= y
    ensures Round(x) <= Round(y)
  {}

  function MaxInt(a: int, b: int): int {
    if a >= b then a else b
  }
}
