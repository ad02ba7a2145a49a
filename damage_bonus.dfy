/** The damage bonus a character adds to attacks, in Symmetry dice, read off
    an attribute (Awareness for ranged, Strength for melee). */
module DamageBonus {
  import opened Common

  /** `getSym`: 0 up to 8, then 1, 2, 2, 3, 3, 4, 4 for 9..15, and 5 from 16 on. */
  function SymmetryBonus(v: int): (b: nat)
    ensures b <= 5
    ensures b == 0 <==> v <= 8
    ensures b == 1 <==> v == 9
    ensures b == 2 <==> 10 <= v <= 11
    ensures b == 3 <==> 12 <= v <= 13
    ensures b == 4 <==> 14 <= v <= 15
    ensures b == 5 <==> v >= 16
  {
    if v <= 8 then 0
    else if v == 9 then 1
    else if v <= 11 then 2
    else if v <= 13 then 3
    else if v <= 15 then 4
    else 5
  }

  /** `getSym` on the stored attribute as JavaScript compares it: every
      comparison with NaN is false, so a non-numeric attribute falls through
      to the last branch and gets the full bonus of 5. */
  function SymmetryBonusOf(v: Num): (b: nat)
    ensures v.NaN? ==> b == 5
    ensures v.Int? ==> b == SymmetryBonus(v.v)
  {
    if AtMostNum(v, 8) then 0
    else if EqualsNum(v, 9) then 1
    else if AtMostNum(v, 11) then 2
    else if AtMostNum(v, 13) then 3
    else if AtMostNum(v, 15) then 4
    else 5
  }

  /** A higher attribute never gives a lower bonus, and one point more raises
      it by at most one die. */
  lemma SymmetryBonusSteps(a: int, b: int)
    requires a <= b
    ensures SymmetryBonus(a) <= SymmetryBonus(b)
    ensures b == a + 1 ==> SymmetryBonus(b) <= SymmetryBonus(a) + 1
  {
  }

  /** The bonus used on an attack: melee when the weapon's range reads
      "REACH" (upper-cased), ranged otherwise. */
  function AttackBonus(isMelee: bool, strength: int, awareness: int): (b: nat)
    ensures isMelee ==> b == SymmetryBonus(strength)
    ensures !isMelee ==> b == SymmetryBonus(awareness)
  {
    if isMelee then SymmetryBonus(strength) else SymmetryBonus(awareness)
  }
}
