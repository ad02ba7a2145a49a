/** The stored record of a skill or attack roll card and its reroll: the
    user picks dice on the card, rolled dice replace them in place, and the
    previous dice go onto a bounded history. */
module RollSession {
  import opened Common
  import Formula
  import Symmetry
  import SkillTest
  import HitLocation

  datatype Die = D20 | D6

  /** A die picked on the card: its type and 0-based position. */
  datatype Pick = Pick(die: Die, index: int)

  /** The dice of the record before a reroll, with the time of the reroll. */
  datatype Snapshot = Snapshot(at: int, d20: seq<int>, d6: seq<int>, note: string)

  const HistoryLimit: nat := 10

  /** The fixed parameters of the card, which no reroll changes. An attack
      keeps the hit-location label computed when it was first rolled. */
  datatype Kind =
    | Skill(tn: int, focus: int, compLimit: int, auto: bool)
    | Attack(base: int, bonus: int, totalDSY: nat, loc: string)

  /** `selected.filter(s => s.die === die)`, as positions, in selection order. */
  function IndicesOf(sel: seq<Pick>, die: Die): (r: seq<int>)
    ensures |r| <= |sel|
  {
    if sel == [] then []
    else (if sel[0].die == die then [sel[0].index] else []) + IndicesOf(sel[1..], die)
  }

  predicate Sorted(s: seq<int>)
  {
    forall i, j :: 0 <= i < j < |s| ==> s[i] <= s[j]
  }

  function Insert(x: int, s: seq<int>): (r: seq<int>)
    requires Sorted(s)
    ensures |r| == |s| + 1
    ensures forall k :: 0 <= k < |r| ==> r[k] == x || r[k] in s
    ensures Sorted(r)
    ensures multiset(r) == multiset(s) + multiset{x}
  {
    if s == [] then [x]
    else if x <= s[0] then [x] + s
    else
      var t := Insert(x, s[1..]);
      assert s == [s[0]] + s[1..];
      assert forall k :: 0 <= k < |t| ==> s[0] <= t[k];
      [s[0]] + t
  }

  /** `.sort((a, b) => a.index - b.index)`: ascending, same elements. */
  function SortAscending(s: seq<int>): (r: seq<int>)
    ensures Sorted(r)
    ensures multiset(r) == multiset(s)
  {
    if s == [] then []
    else
      assert s == [s[0]] + s[1..];
      Insert(s[0], SortAscending(s[1..]))
  }

  /** The positions of one die type to reroll, smallest first. */
  function Selected(sel: seq<Pick>, die: Die): (r: seq<int>)
    ensures |r| == |IndicesOf(sel, die)|
  {
    var r := SortAscending(IndicesOf(sel, die));
    assert |r| == |multiset(r)| == |multiset(IndicesOf(sel, die))|;
    r
  }

  /** The replacement loop: the k-th rolled value goes to position `idxs[k]`
      when that position exists, in order. */
  function ApplyFresh(cur: seq<int>, idxs: seq<int>, rolled: seq<int>): (r: seq<int>)
    requires |rolled| == |idxs|
    ensures |r| == |cur|
  {
    if idxs == [] then cur
    else
      var n := |idxs| - 1;
      var c := ApplyFresh(cur, idxs[..n], rolled[..n]);
      if 0 <= idxs[n] < |c| then c[idxs[n] := rolled[n]] else c
  }

  /** The replacement loop of the reroll handler on one die type: for each
      i, write `vals[i]` at position `idxs[i]` if the position exists. */
  method ReplaceAt(cur: seq<int>, idxs: seq<int>, vals: seq<int>) returns (r: seq<int>)
    requires |vals| == |idxs|
    ensures r == ApplyFresh(cur, idxs, vals)
  {
    r := cur;
    for i := 0 to |idxs|
      invariant r == ApplyFresh(cur, idxs[..i], vals[..i])
    {
      assert idxs[..i + 1][..i] == idxs[..i] && vals[..i + 1][..i] == vals[..i];
      var idx := idxs[i];
      if 0 <= idx < |r| {
        r := r[idx := vals[i]];
      }
    }
    assert idxs[..|idxs|] == idxs && vals[..|vals|] == vals;
  }

  /** `history.unshift(snapshot)` followed by `history.slice(0, 10)`. */
  function PushHistory(h: seq<Snapshot>, s: Snapshot): (r: seq<Snapshot>)
    ensures |r| == Min(HistoryLimit, |h| + 1)
    ensures r[0] == s
    ensures forall i :: 1 <= i < |r| ==> r[i] == h[i - 1]
  {
    ([s] + h)[..Min(HistoryLimit, |h| + 1)]
  }

  class RollRecord {
    const kind: Kind
    var d20: seq<int>
    var d6: seq<int>
    var history: seq<Snapshot>

    /** History is bounded; an attack keeps one location die and its DSY count,
        a skill test has no d6. */
    ghost predicate Valid()
      reads this
    {
      && |history| <= HistoryLimit
      && (kind.Attack? ==> |d20| == 1 && |d6| == kind.totalDSY)
      && (kind.Skill? ==> d6 == [])
    }

    /** The record `_onRollSkill` stores with its card. */
    constructor Skill(tn: int, focus: int, compLimit: int, auto: bool, rolls: seq<int>)
      ensures Valid()
      ensures kind == Kind.Skill(tn, focus, compLimit, auto)
      ensures d20 == rolls && d6 == [] && history == []
    {
      kind := Kind.Skill(tn, focus, compLimit, auto);
      d20 := rolls;
      d6 := [];
      history := [];
    }

    /** The record the attack handler stores: `AttackDiceCount` d6 faces and one
        d20 whose hit location is computed now and kept as text. */
    constructor Attack(f: Formula.DamageFormula, bonus: int, faces: seq<int>, locValue: int)
      requires |faces| == Symmetry.AttackDiceCount(f.dsyCount, bonus)
      ensures Valid()
      ensures kind == Kind.Attack(f.base, bonus, |faces|,
                                  HitLocation.Label(HitLocation.Locate(locValue)))
      ensures d20 == [locValue] && d6 == faces && history == []
    {
      kind := Kind.Attack(f.base, bonus, |faces|, HitLocation.Label(HitLocation.Locate(locValue)));
      d20 := [locValue];
      d6 := faces;
      history := [];
    }

    /** The reroll button: with nothing picked, nothing happens. Otherwise the
        current dice are pushed as a snapshot onto the front of the history,
        which keeps its 10 newest entries, and each die type's rolled values
        replace the picked positions, smallest position first; positions
        outside the current dice are skipped. The dice engine returns as many
        rolled values as dice of each type were picked. */
    method Reroll(sel: seq<Pick>, fresh20: seq<int>, fresh6: seq<int>, at: int)
      requires Valid()
      requires |fresh20| == |IndicesOf(sel, D20)| && |fresh6| == |IndicesOf(sel, D6)|
      modifies this
      ensures Valid()
      ensures sel == [] ==> d20 == old(d20) && d6 == old(d6) && history == old(history)
      ensures sel != [] ==>
        && history == PushHistory(old(history), Snapshot(at, old(d20), old(d6), "Rerolled"))
        && d20 == ApplyFresh(old(d20), Selected(sel, D20), fresh20)
        && d6 == ApplyFresh(old(d6), Selected(sel, D6), fresh6)
    {
      if sel == [] {
        return;
      }
      var sel20 := Selected(sel, D20);
      var sel6 := Selected(sel, D6);

      // The handler edits a duplicate of the stored record and writes it back.
      var h := [Snapshot(at, d20, d6, "Rerolled")] + history;
      h := h[..Min(HistoryLimit, |h|)];

      var n20 := ReplaceAt(d20, sel20, fresh20);
      var n6 := ReplaceAt(d6, sel6, fresh6);

      history, d20, d6 := h, n20, n6;
    }

    /** The skill card as `_mcRenderRollCard` draws it from the stored record:
        successes and complications recomputed from the current d20s. */
    method SkillCard() returns (r: SkillTest.SkillResult)
      requires kind.Skill?
      ensures r == SkillTest.SkillTotals(d20, kind.tn, kind.focus, kind.compLimit, kind.auto)
    {
      r := SkillTest.ScoreSkill(d20, kind.tn, kind.focus, kind.compLimit, kind.auto);
    }

    /** The attack card as `_mcRenderRollCard` draws it: successes, effects and
        total recomputed from the current d6s; the location value is the
        current first d20, but the location text is the stored one. */
    method AttackCard() returns (v: AttackView)
      requires kind.Attack?
      ensures v.totals.success == Symmetry.Successes(d6)
      ensures v.totals.effects == Symmetry.Effects(d6)
      ensures v.totals.damage == kind.base + Symmetry.Successes(d6)
      ensures v.locValue == (if |d20| > 0 then d20[0] else 0)
      ensures v.locLabel == kind.loc
    {
      var totals := Symmetry.ScoreDamage(kind.base, d6);
      v := AttackView(totals, if |d20| > 0 then d20[0] else 0, kind.loc);
    }

    /** The attack card with the location text computed from the current
        location die, as every other derived field is. */
    method AttackCardRecomputed() returns (v: AttackView)
      requires kind.Attack?
      ensures v.totals.success == Symmetry.Successes(d6)
      ensures v.totals.effects == Symmetry.Effects(d6)
      ensures v.totals.damage == kind.base + Symmetry.Successes(d6)
      ensures v.locValue == (if |d20| > 0 then d20[0] else 0)
      ensures v.locLabel == HitLocation.Label(HitLocation.Locate(v.locValue))
    {
      var totals := Symmetry.ScoreDamage(kind.base, d6);
      var locValue := if |d20| > 0 then d20[0] else 0;
      v := AttackView(totals, locValue, HitLocation.Label(HitLocation.Locate(locValue)));
    }
  }

  /** What the attack card shows: DSY totals and the hit location. */
  datatype AttackView = AttackView(totals: Symmetry.Totals, locValue: int, locLabel: string)

  // ---------------- Properties of the reroll ----------------

  /** Worked case of two rerolls on the Symmetry dice 1, 2, 6: the second die
      becomes 4, then the first becomes 2; the history lists the dice before
      each reroll, newest first. */
  method TwoRerolls() returns (afterFirst: seq<int>, afterSecond: seq<int>, newest: seq<int>, older: seq<int>)
    ensures afterFirst == [1, 4, 6] && afterSecond == [2, 4, 6]
    ensures newest == [1, 4, 6] && older == [1, 2, 6]
  {
    var rec := new RollRecord.Attack(Formula.DamageFormula(0, 3), 0, [1, 2, 6], 5);
    assert Selected([Pick(D6, 1)], D6) == [1];
    rec.Reroll([Pick(D6, 1)], [], [4], 1000);
    afterFirst := rec.d6;
    assert Selected([Pick(D6, 0)], D6) == [0];
    rec.Reroll([Pick(D6, 0)], [], [2], 2000);
    afterSecond := rec.d6;
    newest := rec.history[0].d6;
    older := rec.history[1].d6;
  }

  /** The attack card after the location die is rerolled from 1 to 20: the
      card shows the new value 20 beside the stored label "HEAD", while the
      band of 20 is "LEFT LEG". */
  method StaleLocationLabel() returns (v: AttackView)
    ensures v.locValue == 20 && v.locLabel == "HEAD"
    ensures HitLocation.Label(HitLocation.Locate(v.locValue)) == "LEFT LEG"
  {
    var rec := new RollRecord.Attack(Formula.DamageFormula(1, 1), 0, [3], 1);
    assert Selected([Pick(D20, 0)], D20) == [0];
    rec.Reroll([Pick(D20, 0)], [20], [], 0);
    v := rec.AttackCard();
  }


  /** Positions not picked keep their dice. */
  lemma {:induction false} ApplyFreshKeeps(cur: seq<int>, idxs: seq<int>, rolled: seq<int>, p: int)
    requires |rolled| == |idxs|
    requires 0 <= p < |cur| && p !in idxs
    ensures ApplyFresh(cur, idxs, rolled)[p] == cur[p]
  {
    if idxs != [] {
      var n := |idxs| - 1;
      ApplyFreshKeeps(cur, idxs[..n], rolled[..n], p);
    }
  }

  predicate StrictlySorted(s: seq<int>)
  {
    forall i, j :: 0 <= i < j < |s| ==> s[i] < s[j]
  }

  /** With distinct positions (listed smallest first), the k-th rolled value
      lands on the k-th position whenever that position exists. */
  lemma {:induction false} ApplyFreshPlaces(cur: seq<int>, idxs: seq<int>, rolled: seq<int>, k: nat)
    requires |rolled| == |idxs|
    requires StrictlySorted(idxs)
    requires k < |idxs| && 0 <= idxs[k] < |cur|
    ensures ApplyFresh(cur, idxs, rolled)[idxs[k]] == rolled[k]
  {
    var n := |idxs| - 1;
    if k < n {
      assert StrictlySorted(idxs[..n]);
      ApplyFreshPlaces(cur, idxs[..n], rolled[..n], k);
      assert idxs[n] != idxs[k];
    }
  }

  /** Each pick occurs once (the card has one element per die). */
  ghost predicate DistinctPicks(sel: seq<Pick>)
  {
    forall p :: multiset(sel)[p] <= 1
  }

  lemma {:induction false} IndicesOfCount(sel: seq<Pick>, die: Die, x: int)
    ensures multiset(IndicesOf(sel, die))[x] == multiset(sel)[Pick(die, x)]
  {
    if sel != [] {
      IndicesOfCount(sel[1..], die, x);
      var head := if sel[0].die == die then [sel[0].index] else [];
      assert IndicesOf(sel, die) == head + IndicesOf(sel[1..], die);
      assert multiset(IndicesOf(sel, die)) == multiset(head) + multiset(IndicesOf(sel[1..], die));
      assert sel == [sel[0]] + sel[1..];
      assert multiset(sel) == multiset{sel[0]} + multiset(sel[1..]);
      assert multiset(head)[x] == multiset{sel[0]}[Pick(die, x)];
    }
  }

  lemma TwiceMeansCountTwo(s: seq<int>, i: nat, j: nat)
    requires i < j < |s| && s[i] == s[j]
    ensures multiset(s)[s[i]] >= 2
  {
    assert s == s[..j] + [s[j]] + s[j + 1..];
    assert s[..j][i] == s[i];
    assert multiset(s[..j])[s[i]] >= 1;
    assert multiset(s) == multiset(s[..j]) + multiset{s[j]} + multiset(s[j + 1..]);
  }

  /** Distinct picks give each die type distinct positions, smallest first. */
  lemma SelectedStrictlySorted(sel: seq<Pick>, die: Die)
    requires DistinctPicks(sel)
    ensures StrictlySorted(Selected(sel, die))
  {
    var r := Selected(sel, die);
    forall i, j | 0 <= i < j < |r|
      ensures r[i] < r[j]
    {
      if r[i] == r[j] {
        TwiceMeansCountTwo(r, i, j);
        IndicesOfCount(sel, die, r[i]);
        assert false;
      }
    }
  }

  /** A position is picked for a die type exactly when it is among that type's
      selected positions. */
  lemma PickedIffSelected(sel: seq<Pick>, die: Die, p: int)
    ensures p in Selected(sel, die) <==> Pick(die, p) in sel
  {
    IndicesOfCount(sel, die, p);
    assert p in Selected(sel, die) <==> multiset(Selected(sel, die))[p] > 0;
    assert Pick(die, p) in sel <==> multiset(sel)[Pick(die, p)] > 0;
  }

  /** After a reroll, a die keeps its value unless it was picked, and with
      distinct picks the i-th smallest picked position of a type gets that
      type's i-th rolled value. */
  lemma RerollReplacesPicked(cur: seq<int>, sel: seq<Pick>, die: Die, rolled: seq<int>, p: int)
    requires |rolled| == |IndicesOf(sel, die)|
    requires 0 <= p < |cur|
    ensures Pick(die, p) !in sel ==> ApplyFresh(cur, Selected(sel, die), rolled)[p] == cur[p]
    ensures DistinctPicks(sel) ==> forall k :: 0 <= k < |Selected(sel, die)| && Selected(sel, die)[k] == p ==>
      ApplyFresh(cur, Selected(sel, die), rolled)[p] == rolled[k]
  {
    PickedIffSelected(sel, die, p);
    if Pick(die, p) !in sel {
      ApplyFreshKeeps(cur, Selected(sel, die), rolled, p);
    }
    if DistinctPicks(sel) {
      SelectedStrictlySorted(sel, die);
      forall k | 0 <= k < |Selected(sel, die)| && Selected(sel, die)[k] == p
        ensures ApplyFresh(cur, Selected(sel, die), rolled)[p] == rolled[k]
      {
        ApplyFreshPlaces(cur, Selected(sel, die), rolled, k);
      }
    }
  }
}
