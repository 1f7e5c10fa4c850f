// Arithmetic that the solver needs to be pointed to.
module Arithmetic {

  lemma MultiplyMonotone(a: nat, b: nat, c: nat)
    requires a <= b
    ensures a * c <= b * c
  {}
}
