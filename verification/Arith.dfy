/** The few facts about products the proofs need by name. */
module Arith {

  lemma TimesSucc(k: nat, w: nat)
    ensures k * w >= 0 && (k + 1) * w == k * w + w
  {
  }

  lemma TimesMonotone(a: nat, b: nat, w: nat)
    requires a <= b
    ensures 0 <= a * w <= b * w
  {
  }
}
