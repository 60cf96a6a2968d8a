/** Facts about products and minima that several proofs share. */
module Arithmetic {
  function Min(a: int, b: int): (m: int) {
    if a < b then a else b
  }

  lemma MulMonotone(p: nat, a: nat, b: nat)
    requires a <= b
    ensures p * a <= p * b
  {
  }

  lemma NonNegative(a: nat, b: nat)
    ensures a * b >= 0
  {
  }
}
