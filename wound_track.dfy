/** Wound tracks of a character: per-location box counts read off a table by
    Physique + Strength, the stored box arrays normalised to those counts,
    the mental track, armour soak per location, and the click on a box. */
module WoundTrack {
  import opened Common

  /** An end of a band of the table; the outermost bands are open. */
  datatype Bound = NegInf | At(n: int) | PosInf

  /** One row of `_combatBoxConfig`: a band of Physique + Strength and the box
      count of each track (arms and legs right and left). */
  datatype BoxRow = BoxRow(min: Bound, max: Bound,
                           head: nat, torso: nat, ra: nat, la: nat, rl: nat, ll: nat,
                           serious: nat, critical: nat)

  const Rows: seq<BoxRow> := [
    BoxRow(NegInf, At(9),  2, 5,  2, 2, 3, 3, 4, 2),
    BoxRow(At(10), At(11), 2, 6,  2, 2, 4, 4, 4, 2),
    BoxRow(At(12), At(13), 2, 6,  3, 3, 4, 4, 5, 3),
    BoxRow(At(14), At(15), 3, 7,  3, 3, 5, 5, 5, 3),
    BoxRow(At(16), At(17), 3, 7,  4, 4, 5, 5, 6, 3),
    BoxRow(At(18), At(19), 3, 8,  4, 4, 6, 6, 6, 4),
    BoxRow(At(20), At(21), 4, 8,  5, 5, 6, 6, 7, 4),
    BoxRow(At(22), At(23), 4, 9,  5, 5, 7, 7, 7, 4),
    BoxRow(At(24), At(25), 4, 9,  6, 6, 7, 7, 8, 5),
    BoxRow(At(26), At(27), 5, 10, 6, 6, 8, 8, 8, 5),
    BoxRow(At(28), At(29), 5, 10, 7, 7, 8, 9, 9, 5),
    BoxRow(At(30), PosInf, 5, 11, 7, 7, 9, 9, 9, 6)
  ]

  predicate AtLeast(t: int, b: Bound)
  {
    match b
    case NegInf => true
    case At(n) => t >= n
    case PosInf => false
  }

  predicate AtMost(t: int, b: Bound)
  {
    match b
    case NegInf => false
    case At(n) => t <= n
    case PosInf => true
  }

  /** `total >= r.min && total <= r.max`; every comparison with NaN is false. */
  predicate InRow(total: Num, r: BoxRow)
  {
    match total
    case Int(t) => AtLeast(t, r.min) && AtMost(t, r.max)
    case NaN => false
  }

  /** `Array.prototype.find`: the first row whose band holds the total. */
  function FindRow(rows: seq<BoxRow>, total: Num): (r: Option<BoxRow>)
    ensures r.Some? ==> InRow(total, r.value) && r.value in rows
    ensures r.Some? ==> exists k :: 0 <= k < |rows| && r.value == rows[k] && InRow(total, rows[k])
                                    && forall j :: 0 <= j < k ==> !InRow(total, rows[j])
    ensures r.None? <==> forall k :: 0 <= k < |rows| ==> !InRow(total, rows[k])
  {
    if rows == [] then None
    else if InRow(total, rows[0]) then Some(rows[0])
    else FindRow(rows[1..], total)
  }

  /** `_combatBoxConfig`, with its fallback to the first row: an integer
      total gets the one band that holds it, a non-numeric total (every
      comparison false) the first row. */
  function CombatBoxConfig(total: Num): (r: BoxRow)
    ensures r in Rows
    ensures total.Int? ==> InRow(total, r) && r == Rows[RowIndex(total.v)]
    ensures total.NaN? ==> r == Rows[0]
  {
    var found := FindRow(Rows, total);
    if total.NaN? then found.GetOr(Rows[0])
    else ExactlyOneRow(total.v); found.GetOr(Rows[0])
  }

  /** The index of the band that holds `t`. */
  function RowIndex(t: int): (k: nat)
    ensures k < |Rows|
  {
    if t <= 9 then 0 else if t >= 30 then 11 else (t - 10) / 2 + 1
  }

  /** Bands are exhaustive and disjoint: every integer total lies in exactly
      one row, so the lookup returns that row and never needs the fallback. */
  lemma ExactlyOneRow(t: int)
    ensures InRow(Int(t), Rows[RowIndex(t)])
    ensures forall j :: 0 <= j < |Rows| && j != RowIndex(t) ==> !InRow(Int(t), Rows[j])
    ensures FindRow(Rows, Int(t)) == Some(Rows[RowIndex(t)])
  {
    var k := RowIndex(t);
    forall j | 0 <= j < |Rows| && j != k
      ensures !InRow(Int(t), Rows[j])
    {
      if j == 0 { assert Rows[0].max == At(9); }
      else if j == 11 { assert Rows[11].min == At(30); }
      else {
        assert Rows[j].min == At(2 * j + 8) && Rows[j].max == At(2 * j + 9);
      }
    }
    if k == 0 { assert Rows[0].max == At(9); }
    else if k == 11 { assert Rows[11].min == At(30); }
    else { assert Rows[k].min == At(2 * k + 8) && Rows[k].max == At(2 * k + 9); }
    var r := FindRow(Rows, Int(t));
    assert r.Some?;
    assert r.value == Rows[k];
  }

  predicate RowLe(a: BoxRow, b: BoxRow)
  {
    a.head <= b.head && a.torso <= b.torso && a.ra <= b.ra && a.la <= b.la
    && a.rl <= b.rl && a.ll <= b.ll && a.serious <= b.serious && a.critical <= b.critical
  }

  lemma AdjacentRows(k: nat)
    requires k + 1 < |Rows|
    ensures RowLe(Rows[k], Rows[k + 1])
  {
    var r := Rows;
    if k == 0 { assert RowLe(r[0], r[1]); }
    else if k == 1 { assert RowLe(r[1], r[2]); }
    else if k == 2 { assert RowLe(r[2], r[3]); }
    else if k == 3 { assert RowLe(r[3], r[4]); }
    else if k == 4 { assert RowLe(r[4], r[5]); }
    else if k == 5 { assert RowLe(r[5], r[6]); }
    else if k == 6 { assert RowLe(r[6], r[7]); }
    else if k == 7 { assert RowLe(r[7], r[8]); }
    else if k == 8 { assert RowLe(r[8], r[9]); }
    else if k == 9 { assert RowLe(r[9], r[10]); }
    else { assert RowLe(r[10], r[11]); }
  }

  /** Later rows of the table never have fewer boxes on any track. */
  lemma RowsMonotone(i: nat, j: nat)
    requires i <= j < |Rows|
    ensures RowLe(Rows[i], Rows[j])
  {
    var k := i;
    while k < j
      invariant i <= k <= j
      invariant RowLe(Rows[i], Rows[k])
    {
      AdjacentRows(k);
      k := k + 1;
    }
  }

  /** A stronger character never has fewer boxes on any track. */
  lemma ConfigMonotone(a: int, b: int)
    requires a <= b
    ensures RowLe(CombatBoxConfig(Int(a)), CombatBoxConfig(Int(b)))
  {
    RowsMonotone(RowIndex(a), RowIndex(b));
  }

  lemma LimbsOfRow(k: nat)
    requires k < |Rows|
    ensures Rows[k].ra == Rows[k].la
    ensures Rows[k].rl != Rows[k].ll <==> k == 10
    ensures k == 10 ==> Rows[k].ll == Rows[k].rl + 1
  {
    var r := Rows;
    if k == 0 { assert r[0].ra == r[0].la && r[0].rl == r[0].ll; }
    else if k == 1 { assert r[1].ra == r[1].la && r[1].rl == r[1].ll; }
    else if k == 2 { assert r[2].ra == r[2].la && r[2].rl == r[2].ll; }
    else if k == 3 { assert r[3].ra == r[3].la && r[3].rl == r[3].ll; }
    else if k == 4 { assert r[4].ra == r[4].la && r[4].rl == r[4].ll; }
    else if k == 5 { assert r[5].ra == r[5].la && r[5].rl == r[5].ll; }
    else if k == 6 { assert r[6].ra == r[6].la && r[6].rl == r[6].ll; }
    else if k == 7 { assert r[7].ra == r[7].la && r[7].rl == r[7].ll; }
    else if k == 8 { assert r[8].ra == r[8].la && r[8].rl == r[8].ll; }
    else if k == 9 { assert r[9].ra == r[9].la && r[9].rl == r[9].ll; }
    else if k == 10 { assert r[10].ra == r[10].la && r[10].ll == r[10].rl + 1; }
    else { assert r[11].ra == r[11].la && r[11].rl == r[11].ll; }
  }

  /** Arms are always symmetric; legs differ only in the 28-29 band, where the
      left leg has one box more than the right. */
  lemma LimbSymmetry(t: int)
    ensures CombatBoxConfig(Int(t)).ra == CombatBoxConfig(Int(t)).la
    ensures CombatBoxConfig(Int(t)).rl != CombatBoxConfig(Int(t)).ll <==> 28 <= t <= 29
    ensures 28 <= t <= 29 ==> CombatBoxConfig(Int(t)).ll == CombatBoxConfig(Int(t)).rl + 1
  {
    LimbsOfRow(RowIndex(t));
  }

  /** `_normalizeBoolArray`: the stored array (None when it is not an array)
      cut to `len` entries and padded with unchecked boxes. */
  function Normalized(arr: Option<seq<bool>>, len: nat): (r: seq<bool>)
    ensures |r| == len
    ensures arr.Some? ==> forall i :: 0 <= i < len && i < |arr.value| ==> r[i] == arr.value[i]
    ensures forall i :: 0 <= i < len && (arr.None? || i >= |arr.value|) ==> !r[i]
  {
    var a := if arr.Some? then arr.value[..Min(len, |arr.value|)] else [];
    a + seq(len - |a|, _ => false)
  }

  /** The slice-then-push loop of `_normalizeBoolArray`. */
  method NormalizeBoolArray(arr: Option<seq<bool>>, len: nat) returns (a: seq<bool>)
    ensures a == Normalized(arr, len)
  {
    a := if arr.Some? then arr.value[..Min(len, |arr.value|)] else [];
    ghost var kept := a;
    while |a| < len
      invariant |kept| <= |a| <= len
      invariant a[..|kept|] == kept
      invariant forall i :: |kept| <= i < |a| ==> !a[i]
    {
      a := a + [false];
    }
    assert a == kept + seq(len - |kept|, _ => false);
  }

  /** Normalising twice is normalising once. */
  lemma NormalizedIdempotent(arr: Option<seq<bool>>, len: nat)
    ensures Normalized(Some(Normalized(arr, len)), len) == Normalized(arr, len)
  {
  }

  /** Worked cases: padding with unchecked boxes, and truncation. */
  lemma NormalizedExamples()
    ensures Normalized(Some([true, false]), 5) == [true, false, false, false, false]
    ensures Normalized(Some([true, true, true]), 2) == [true, true]
    ensures Normalized(None, 3) == [false, false, false]
  {
  }

  /** One box of a view: its 0-based position and whether it is checked. */
  datatype Box = Box(index: nat, checked: bool)

  /** `makeBoxes`: one box per entry, numbered from 0, checked as the entry. */
  function Boxes(arr: seq<bool>): (r: seq<Box>)
    ensures |r| == |arr|
    ensures forall i :: 0 <= i < |arr| ==> r[i].index == i && r[i].checked == arr[i]
  {
    seq(|arr|, i requires 0 <= i < |arr| => Box(i, arr[i]))
  }

  /** Mental-wound boxes: Mental Strength, never below zero. A value that is
      not a number makes `Math.max` return NaN, which normalises to no boxes. */
  function MentalCapacity(ms: Num): (n: nat)
    ensures ms.Int? && ms.v >= 0 ==> n == ms.v
    ensures ms.Int? && ms.v < 0 ==> n == 0
    ensures ms.NaN? ==> n == 0
  {
    match ms
    case Int(v) => Max(0, v)
    case NaN => 0
  }

  /** `Number(phy) + Number(str)`. */
  function AddNum(a: Num, b: Num): Num
  {
    if a.Int? && b.Int? then Int(a.v + b.v) else NaN
  }

  /** Stored box arrays of a character (None where the stored value is not an array). */
  datatype StoredWounds = StoredWounds(head: Option<seq<bool>>, torso: Option<seq<bool>>,
                                       rightArm: Option<seq<bool>>, leftArm: Option<seq<bool>>,
                                       rightLeg: Option<seq<bool>>, leftLeg: Option<seq<bool>>,
                                       serious: Option<seq<bool>>, critical: Option<seq<bool>>,
                                       mental: Option<seq<bool>>)

  /** The tracks the sheet shows, every one of the size the attributes give. */
  datatype Tracks = Tracks(head: seq<bool>, torso: seq<bool>,
                           rightArm: seq<bool>, leftArm: seq<bool>,
                           rightLeg: seq<bool>, leftLeg: seq<bool>,
                           serious: seq<bool>, critical: seq<bool>,
                           mental: seq<bool>)

  /** The wound part of the character sheet's data preparation: look up the
      row for Physique + Strength and normalise every stored array to it. */
  method CombatTracks(physique: Num, strength: Num, mentalStrength: Num, w: StoredWounds)
    returns (t: Tracks)
    ensures var cfg := CombatBoxConfig(AddNum(physique, strength));
      && t.head == Normalized(w.head, cfg.head)
      && t.torso == Normalized(w.torso, cfg.torso)
      && t.rightArm == Normalized(w.rightArm, cfg.ra)
      && t.leftArm == Normalized(w.leftArm, cfg.la)
      && t.rightLeg == Normalized(w.rightLeg, cfg.rl)
      && t.leftLeg == Normalized(w.leftLeg, cfg.ll)
      && t.serious == Normalized(w.serious, cfg.serious)
      && t.critical == Normalized(w.critical, cfg.critical)
      && t.mental == Normalized(w.mental, MentalCapacity(mentalStrength))
  {
    var cfg := CombatBoxConfig(AddNum(physique, strength));
    var head := NormalizeBoolArray(w.head, cfg.head);
    var torso := NormalizeBoolArray(w.torso, cfg.torso);
    var rightArm := NormalizeBoolArray(w.rightArm, cfg.ra);
    var leftArm := NormalizeBoolArray(w.leftArm, cfg.la);
    var rightLeg := NormalizeBoolArray(w.rightLeg, cfg.rl);
    var leftLeg := NormalizeBoolArray(w.leftLeg, cfg.ll);
    var serious := NormalizeBoolArray(w.serious, cfg.serious);
    var critical := NormalizeBoolArray(w.critical, cfg.critical);
    var mental := NormalizeBoolArray(w.mental, MentalCapacity(mentalStrength));
    t := Tracks(head, torso, rightArm, leftArm, rightLeg, leftLeg, serious, critical, mental);
  }

  // ---------------- Armour soak ----------------

  /** `armsCoverage`: "both" (also when missing), "left", "right"; any other
      text covers neither arm. */
  datatype Coverage = Both | LeftOnly | RightOnly | Neither

  function CoverageOf(s: Option<string>): (c: Coverage)
    ensures s.None? ==> c == Both
    ensures s.Some? ==> (c == Both <==> s.value == "both")
    ensures s.Some? ==> (c == LeftOnly <==> s.value == "left")
    ensures s.Some? ==> (c == RightOnly <==> s.value == "right")
  {
    match s
    case None => Both
    case Some(t) =>
      if t == "both" then Both
      else if t == "right" then RightOnly
      else if t == "left" then LeftOnly
      else Neither
  }

  /** An equipped armour: soak for head, torso, arms and legs (one value for
      both legs), and which arms it covers. */
  datatype Armor = Armor(head: int, torso: int, arms: int, legs: int, coverage: Coverage)

  datatype Soak = Soak(head: int, torso: int, rightArm: int, leftArm: int, rightLeg: int, leftLeg: int)

  /** One pass of the soak loop body. */
  function AddArmor(s: Soak, a: Armor): Soak
  {
    Soak(s.head + a.head, s.torso + a.torso,
         s.rightArm + (if a.coverage == Both || a.coverage == RightOnly then a.arms else 0),
         s.leftArm + (if a.coverage == Both || a.coverage == LeftOnly then a.arms else 0),
         s.rightLeg + a.legs, s.leftLeg + a.legs)
  }

  /** The soak after the loop has run over `armors` in order. */
  function SoakOf(armors: seq<Armor>): Soak
  {
    if armors == [] then Soak(0, 0, 0, 0, 0, 0)
    else AddArmor(SoakOf(armors[..|armors| - 1]), armors[|armors| - 1])
  }

  /** The soak loop over the equipped armours. */
  method AggregateSoak(armors: seq<Armor>) returns (soak: Soak)
    ensures soak == SoakOf(armors)
  {
    soak := Soak(0, 0, 0, 0, 0, 0);
    for i := 0 to |armors|
      invariant soak == SoakOf(armors[..i])
    {
      assert armors[..i + 1][..i] == armors[..i];
      soak := AddArmor(soak, armors[i]);
    }
    assert armors[..|armors|] == armors;
  }

  /** Sum of `f` over the armours, first to last: an independent statement of
      what each location's soak should be. */
  function Total(armors: seq<Armor>, f: Armor -> int): int
  {
    if armors == [] then 0 else f(armors[0]) + Total(armors[1..], f)
  }

  function HeadPart(a: Armor): int { a.head }
  function TorsoPart(a: Armor): int { a.torso }
  function LegsPart(a: Armor): int { a.legs }
  function RightArmPart(a: Armor): int { if a.coverage == Both || a.coverage == RightOnly then a.arms else 0 }
  function LeftArmPart(a: Armor): int { if a.coverage == Both || a.coverage == LeftOnly then a.arms else 0 }

  lemma {:induction false} TotalSnoc(armors: seq<Armor>, x: Armor, f: Armor -> int)
    ensures Total(armors + [x], f) == Total(armors, f) + f(x)
  {
    if armors == [] {
      assert armors + [x] == [x];
      assert [x][1..] == [];
    } else {
      assert (armors + [x])[1..] == armors[1..] + [x];
      TotalSnoc(armors[1..], x, f);
    }
  }

  /** Each location's soak is the sum of that location's values over the
      equipped armours; the two legs always soak alike; an arm counts only
      the armours that cover it. */
  lemma {:induction false} SoakPerLocation(armors: seq<Armor>)
    ensures SoakOf(armors) == Soak(Total(armors, HeadPart), Total(armors, TorsoPart),
                                   Total(armors, RightArmPart), Total(armors, LeftArmPart),
                                   Total(armors, LegsPart), Total(armors, LegsPart))
    ensures SoakOf(armors).rightLeg == SoakOf(armors).leftLeg
  {
    if armors != [] {
      var n := |armors| - 1;
      SoakPerLocation(armors[..n]);
      assert armors[..n] + [armors[n]] == armors;
      TotalSnoc(armors[..n], armors[n], HeadPart);
      TotalSnoc(armors[..n], armors[n], TorsoPart);
      TotalSnoc(armors[..n], armors[n], RightArmPart);
      TotalSnoc(armors[..n], armors[n], LeftArmPart);
      TotalSnoc(armors[..n], armors[n], LegsPart);
    }
  }

  // ---------------- Clicking a wound box ----------------

  /** `arr[idx] = !arr[idx]`. Past the end JavaScript leaves holes, which the
      box view reads as unchecked: modelled as unchecked entries. */
  function Flip(a: seq<bool>, idx: nat): (r: seq<bool>)
    ensures idx < |a| ==> r == a[idx := !a[idx]]
    ensures idx >= |a| ==> |r| == idx + 1 && r[..|a|] == a && r[idx]
    ensures idx >= |a| ==> forall i :: |a| <= i < idx ==> !r[i]
  {
    if idx < |a| then a[idx := !a[idx]] else a + seq(idx - |a|, _ => false) + [true]
  }

  /** Clicking the same box twice restores the track. */
  lemma FlipTwice(a: seq<bool>, idx: nat)
    requires idx < |a|
    ensures Flip(Flip(a, idx), idx) == a
  {
  }

  /** The wound-box click handler: no update without a path or with a
      negative index; otherwise normalise the stored array to the number of
      boxes shown and flip the clicked one. */
  method WoundBoxClick(path: string, stored: Option<seq<bool>>, shown: nat, idx: int)
    returns (update: Option<seq<bool>>)
    ensures (path == [] || idx < 0) <==> update.None?
    ensures update.Some? ==> update.value == Flip(Normalized(stored, shown), idx)
  {
    if path == [] || idx < 0 {
      return None;
    }
    var arr := NormalizeBoolArray(stored, shown);
    if idx < |arr| {
      arr := arr[idx := !arr[idx]];
    } else {
      ghost var before := arr;
      while |arr| < idx
        invariant |before| <= |arr| <= idx
        invariant arr[..|before|] == before
        invariant forall i :: |before| <= i < |arr| ==> !arr[i]
      {
        arr := arr + [false];
      }
      assert arr == before + seq(idx - |before|, _ => false);
      arr := arr + [true];
    }
    update := Some(arr);
  }
}
