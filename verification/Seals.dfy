/**
 Sealed conditions.  A long quantified condition P(x) that a loop or a lemma merely carries along is
 wrapped as `if forall z :: K(z, x) ==> P(x) then Sound else Broken`, where the key K always holds.
 The value is Sound exactly when P(x) holds, but it says nothing about P until K(0, x) is mentioned,
 which the lemma that opens the seal does where a proof needs P itself.
 */
module Seals {
  datatype Verdict = Sound | Broken
}
