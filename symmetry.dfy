/** Symmetry dice (DSY): the six-sided damage die of the game, its face table
    and the damage totals built from a sequence of faces. */
module Symmetry {
  import opened Common

  /** What one face contributes: `s` successes and `e` effects. */
  datatype Outcome = Outcome(s: nat, e: nat)

  /** The face table. Faces 1 and 2 give one and two successes, face 6 one
      effect, every other value (3, 4, 5 and anything out of range) nothing. */
  function MapFace(face: int): (o: Outcome)
    ensures o.s <= 2 && o.e <= 1
    ensures o.s > 0 ==> o.e == 0
    ensures o.s == 1 <==> face == 1
    ensures o.s == 2 <==> face == 2
    ensures o.e == 1 <==> face == 6
    ensures face != 1 && face != 2 && face != 6 ==> o == Outcome(0, 0)
  {
    if face == 1 then Outcome(1, 0)
    else if face == 2 then Outcome(2, 0)
    else if face == 6 then Outcome(0, 1)
    else Outcome(0, 0)
  }

  /** Sum of the successes of the faces, die by die. */
  function Successes(faces: seq<int>): nat
  {
    if faces == [] then 0 else Successes(faces[..|faces| - 1]) + MapFace(faces[|faces| - 1]).s
  }

  /** Sum of the effects of the faces, die by die. */
  function Effects(faces: seq<int>): nat
  {
    if faces == [] then 0 else Effects(faces[..|faces| - 1]) + MapFace(faces[|faces| - 1]).e
  }

  /** The accumulated totals of one damage, impact or attack roll. */
  datatype Totals = Totals(success: nat, effects: nat, damage: int)

  /** The scoring loop of a DSY roll: per face, add the success and effect of
      the face table; the damage is the formula's base plus the successes. */
  method ScoreDamage(base: int, faces: seq<int>) returns (t: Totals)
    ensures t.success == Successes(faces)
    ensures t.effects == Effects(faces)
    ensures t.damage == base + Successes(faces)
  {
    var dsySuccess := 0;
    var effects := 0;
    var i := 0;
    while i < |faces|
      invariant 0 <= i <= |faces|
      invariant dsySuccess == Successes(faces[..i])
      invariant effects == Effects(faces[..i])
    {
      var out := MapFace(faces[i]);
      assert faces[..i + 1][..i] == faces[..i];
      dsySuccess := dsySuccess + out.s;
      effects := effects + out.e;
      i := i + 1;
    }
    assert faces[..|faces|] == faces;
    t := Totals(dsySuccess, effects, base + dsySuccess);
  }

  /** Sums are additive over concatenation, so a roll may be scored in parts. */
  lemma {:induction false} TotalsAdditive(a: seq<int>, b: seq<int>)
    ensures Successes(a + b) == Successes(a) + Successes(b)
    ensures Effects(a + b) == Effects(a) + Effects(b)
  {
    if b == [] {
      assert a + b == a;
    } else {
      var n := |b| - 1;
      assert (a + b)[..|a + b| - 1] == a + b[..n];
      assert (a + b)[|a + b| - 1] == b[n];
      TotalsAdditive(a, b[..n]);
    }
  }

  /** Successes count one per face 1 and two per face 2; effects count the
      sixes; nothing else in the roll matters. */
  lemma {:induction false} TotalsByFaceCount(faces: seq<int>)
    ensures Successes(faces) == Count(faces, 1) + 2 * Count(faces, 2)
    ensures Effects(faces) == Count(faces, 6)
  {
    if faces != [] {
      TotalsByFaceCount(faces[1..]);
      TotalsAdditive([faces[0]], faces[1..]);
      assert [faces[0]] + faces[1..] == faces;
      assert [faces[0]][..0] == [];
    }
  }

  /** Each die adds at most two successes and at most one effect. */
  lemma {:induction false} TotalsBounded(faces: seq<int>)
    ensures Successes(faces) <= 2 * |faces|
    ensures Effects(faces) <= |faces|
    ensures Successes(faces) + 2 * Effects(faces) <= 2 * |faces|
  {
    if faces != [] {
      TotalsBounded(faces[..|faces| - 1]);
    }
  }

  /** The number of DSY rolled for an attack: the weapon's count plus the
      character's damage bonus, never below zero. */
  function AttackDiceCount(dsyCount: int, bonus: int): (n: nat)
    ensures n >= dsyCount + bonus
    ensures dsyCount + bonus >= 0 ==> n == dsyCount + bonus
    ensures dsyCount + bonus < 0 ==> n == 0
  {
    Max(0, dsyCount + bonus)
  }
}
