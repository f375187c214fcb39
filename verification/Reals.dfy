/** Products of exact reals, kept folded where a proof needs only their sign. */
module Reals {

  function Times(a: real, b: real): real { a * b }

  lemma PositiveProduct(a: real, b: real)
    requires a > 0.0 && b > 0.0
    ensures Times(a, b) > 0.0
  {
  }

  lemma SquarePositive(d: real)
    ensures Times(d, d) >= 0.0
    ensures d != 0.0 ==> Times(d, d) > 0.0
  {
    assert Times(-d, -d) == Times(d, d) && Times(0.0, 0.0) == 0.0;
    hide Times;
    if d > 0.0 {
      PositiveProduct(d, d);
    } else if d < 0.0 {
      PositiveProduct(-d, -d);
    }
  }
}
