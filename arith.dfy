/** Small facts of real arithmetic the metric and cost proofs share. */
module Arith {

  lemma MulPositive(a: real, b: real)
    requires a > 0.0 && b > 0.0
    ensures a * b > 0.0
  {
  }
}
