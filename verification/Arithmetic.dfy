/** Steps of nonlinear arithmetic that proofs elsewhere name instead of searching for. */
module Arithmetic {

  lemma Scale(a: int, b: int, m: nat)
    ensures a <= b ==> a * m <= b * m
  {
  }

  lemma Distribute(a: nat, b: nat, d: nat)
    ensures (a + b) * d == a * d + b * d
  {
  }

  lemma CancelFactor(a: nat, b: nat, d: nat)
    requires a * d < b * d
    ensures a < b
  {
  }
}
