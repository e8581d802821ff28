/** Arithmetic facts the solver does not find by itself. */
module Arith {

  /** Multiplying by a natural number keeps the order. */
  lemma MultiplyMonotone(a: int, b: int, c: nat)
    requires a <= b
    ensures a * c <= b * c
  {
  }
}
