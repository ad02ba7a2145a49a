/** Skill tests on d20s: the player-character rule (successes from TN and
    Focus counted independently, complications from the Dread-lowered limit,
    an optional auto-success die bought with a Chronicle Point), the NPC rule,
    and the dice-count and Chronicle Point bookkeeping around them. */
module SkillTest {
  import opened Common

  /** Successes of one die, PC rule: one for `v <= tn`, one more for `v <= focus`. */
  function DieSuccesses(v: int, tn: int, focus: int): (s: nat)
    ensures s <= 2
    ensures s == 2 <==> v <= tn && v <= focus
    ensures s == 0 <==> v > tn && v > focus
  {
    (if v <= tn then 1 else 0) + (if v <= focus then 1 else 0)
  }

  /** Complications of one die: one when `v >= compLimit`. */
  function DieComplications(v: int, compLimit: int): (c: nat)
    ensures c <= 1 && (c == 1 <==> v >= compLimit)
  {
    if v >= compLimit then 1 else 0
  }

  function RolledSuccesses(rolls: seq<int>, tn: int, focus: int): (s: nat)
    ensures s <= 2 * |rolls|
  {
    if rolls == [] then 0
    else RolledSuccesses(rolls[..|rolls| - 1], tn, focus) + DieSuccesses(rolls[|rolls| - 1], tn, focus)
  }

  function RolledComplications(rolls: seq<int>, compLimit: int): (c: nat)
    ensures c <= |rolls|
  {
    if rolls == [] then 0
    else RolledComplications(rolls[..|rolls| - 1], compLimit) + DieComplications(rolls[|rolls| - 1], compLimit)
  }

  /** The auto-success die is a fixed 1, scored for successes only. */
  function AutoSuccesses(tn: int, focus: int): nat
  {
    DieSuccesses(1, tn, focus)
  }

  datatype SkillResult = SkillResult(successes: nat, complications: nat)

  /** What a PC skill test card reports for the given dice: at most two
      successes per die (the auto die included), at most one complication per
      rolled die. */
  function SkillTotals(rolls: seq<int>, tn: int, focus: int, compLimit: int, auto: bool): (r: SkillResult)
    ensures r.successes <= 2 * (|rolls| + (if auto then 1 else 0))
    ensures r.complications <= |rolls|
  {
    SkillResult(RolledSuccesses(rolls, tn, focus) + (if auto then AutoSuccesses(tn, focus) else 0),
                RolledComplications(rolls, compLimit))
  }

  /** The scoring loop of `_onRollSkill`, and the identical one the roll card
      runs again after a reroll: accumulate per-die successes and
      complications, then fold in the auto die if it was bought. */
  method ScoreSkill(rolls: seq<int>, tn: int, focus: int, compLimit: int, useAuto: bool)
    returns (r: SkillResult)
    ensures r == SkillTotals(rolls, tn, focus, compLimit, useAuto)
  {
    var totalS := 0;
    var totalC := 0;
    for i := 0 to |rolls|
      invariant totalS == RolledSuccesses(rolls[..i], tn, focus)
      invariant totalC == RolledComplications(rolls[..i], compLimit)
    {
      assert rolls[..i + 1][..i] == rolls[..i];
      var v := rolls[i];
      var s := 0;
      if v <= tn { s := s + 1; }
      if v <= focus { s := s + 1; }
      totalS := totalS + s;
      if v >= compLimit { totalC := totalC + 1; }
    }
    assert rolls[..|rolls|] == rolls;
    if useAuto {
      var fixed := 1;
      var s := 0;
      if fixed <= tn { s := s + 1; }
      if fixed <= focus { s := s + 1; }
      totalS := totalS + s;
    }
    r := SkillResult(totalS, totalC);
  }

  lemma {:induction false} TotalsAppend(a: seq<int>, b: seq<int>, tn: int, focus: int, compLimit: int)
    ensures RolledSuccesses(a + b, tn, focus) == RolledSuccesses(a, tn, focus) + RolledSuccesses(b, tn, focus)
    ensures RolledComplications(a + b, compLimit) == RolledComplications(a, compLimit) + RolledComplications(b, compLimit)
  {
    if b == [] {
      assert a + b == a;
    } else {
      var n := |b| - 1;
      assert (a + b)[..|a + b| - 1] == a + b[..n];
      assert (a + b)[|a + b| - 1] == b[n];
      TotalsAppend(a, b[..n], tn, focus, compLimit);
    }
  }

  /** The auto die scores exactly the successes a rolled 1 would, and unlike a
      rolled 1 it never adds a complication. */
  lemma AutoDieIsAFreeOne(rolls: seq<int>, tn: int, focus: int, compLimit: int)
    ensures SkillTotals(rolls, tn, focus, compLimit, true).successes
         == SkillTotals(rolls + [1], tn, focus, compLimit, false).successes
    ensures SkillTotals(rolls, tn, focus, compLimit, true).complications
         == SkillTotals(rolls, tn, focus, compLimit, false).complications
    ensures SkillTotals(rolls + [1], tn, focus, compLimit, false).complications
         == SkillTotals(rolls, tn, focus, compLimit, true).complications + (if compLimit <= 1 then 1 else 0)
  {
    TotalsAppend(rolls, [1], tn, focus, compLimit);
  }

  /** Extreme Dread: with a complication limit of 1 or less, every rolled die
      (1..20) is a complication. */
  lemma {:induction false} ExtremeDread(rolls: seq<int>, compLimit: int)
    requires compLimit <= 1
    requires forall i :: 0 <= i < |rolls| ==> 1 <= rolls[i] <= 20
    ensures RolledComplications(rolls, compLimit) == |rolls|
  {
    if rolls != [] {
      ExtremeDread(rolls[..|rolls| - 1], compLimit);
    }
  }

  /** Worked case: TN 10, Focus 5, complications from 18, dice 3, 12, 18. */
  lemma SkillExample()
    ensures SkillTotals([3, 12, 18], 10, 5, 18, false) == SkillResult(2, 1)
  {
    assert [3, 12, 18][..2] == [3, 12];
    assert [3, 12][..1] == [3];
    assert [3][..0] == [];
  }

  /** The PC dialog's die count: `Math.clamp(raw, 1, 5)`; a count that is not
      a number reaches `if (!d20count) return` and rolls nothing. */
  function SkillDiceCount(raw: Num): (n: Option<nat>)
    ensures raw.NaN? <==> n.None?
    ensures n.Some? ==> 1 <= n.value <= 5 && n.value == Clamp(raw.v, 1, 5)
  {
    match raw
    case Int(v) => Some(Clamp(v, 1, 5))
    case NaN => None
  }

  // ---------------- Chronicle Points ----------------

  datatype ChroniclePoints = ChroniclePoints(value: Num, max: nat)

  /** `Number(x ?? d)`: None stands for a missing value. */
  function NumberOr(x: Option<Num>, d: int): Num
  {
    match x
    case None => Int(d)
    case Some(n) => n
  }

  /** Backward-compatible normalisation of the stored Chronicle Points: the
      maximum defaults to 5 and becomes 0 when negative or not a number; the
      value defaults to 0 and is capped at the maximum (a value that is not a
      number compares false and is left as it is). */
  function NormalizeChronicle(value: Option<Num>, max: Option<Num>): (cp: ChroniclePoints)
    ensures cp.value.Int? ==> cp.value.v <= cp.max
    ensures max.None? ==> cp.max == 5
    ensures max == Some(NaN) ==> cp.max == 0
    ensures max.Some? && max.value.Int? ==> cp.max == Max(0, max.value.v)
    ensures value.None? ==> cp.value == Int(0)
    ensures NumberOr(value, 0).Int? && NumberOr(value, 0).v <= cp.max ==> cp.value == NumberOr(value, 0)
    ensures NumberOr(value, 0).Int? && NumberOr(value, 0).v > cp.max ==> cp.value == Int(cp.max)
    ensures NumberOr(value, 0).NaN? ==> cp.value == NaN
  {
    var v := NumberOr(value, 0);
    var m := NumberOr(max, 5);
    var m' := if m.NaN? || m.v < 0 then 0 else m.v;
    var v' := if v.Int? && v.v > m' then Int(m') else v;
    ChroniclePoints(v', m')
  }

  /** Normalising stored points that are already normal changes nothing. */
  lemma NormalizeChronicleIdempotent(value: Option<Num>, max: Option<Num>)
    ensures var cp := NormalizeChronicle(value, max);
            NormalizeChronicle(Some(cp.value), Some(Int(cp.max))) == cp
  {
  }

  datatype Spend = Spend(useAuto: bool, write: Option<int>)

  /** The auto die is used only when asked for and a point is available; then
      the stored value is lowered by one, never below zero. */
  function SpendChronicle(requested: bool, cpCurrent: int): (r: Spend)
    ensures r.useAuto <==> requested && cpCurrent > 0
    ensures r.write.Some? <==> r.useAuto
    ensures r.write.Some? ==> r.write.value == cpCurrent - 1 && r.write.value >= 0
  {
    var useAuto := requested && cpCurrent > 0;
    Spend(useAuto, if useAuto then Some(Max(0, cpCurrent - 1)) else None)
  }

  // ---------------- NPC rule ----------------

  /** Successes of one die, NPC rule: two at or under Focus, else one at or
      under TN. */
  function NpcDieSuccesses(v: int, tn: int, focus: int): (s: nat)
    ensures s <= 2
    ensures s == 2 <==> v <= focus
    ensures s == 1 <==> focus < v <= tn
  {
    if v <= focus then 2 else if v <= tn then 1 else 0
  }

  function NpcSuccesses(rolls: seq<int>, tn: int, focus: int): nat
  {
    if rolls == [] then 0
    else NpcSuccesses(rolls[..|rolls| - 1], tn, focus) + NpcDieSuccesses(rolls[|rolls| - 1], tn, focus)
  }

  /** The scoring loop of `_rollNpcSkill`. */
  method ScoreNpcSkill(rolls: seq<int>, tn: int, focus: int) returns (successes: nat)
    ensures successes == NpcSuccesses(rolls, tn, focus)
  {
    successes := 0;
    for i := 0 to |rolls|
      invariant successes == NpcSuccesses(rolls[..i], tn, focus)
    {
      assert rolls[..i + 1][..i] == rolls[..i];
      var v := rolls[i];
      var s := 0;
      if v <= focus { s := 2; }
      else if v <= tn { s := 1; }
      successes := successes + s;
    }
    assert rolls[..|rolls|] == rolls;
  }

  /** NPC dice: `Math.max(2, Number(diceCount || 2))`, so never fewer than two. */
  function NpcDiceCount(diceCount: Num): (n: nat)
    ensures n >= 2
    ensures diceCount.Int? && diceCount.v >= 2 ==> n == diceCount.v
    ensures diceCount.NaN? || diceCount.v < 2 ==> n == 2
  {
    match diceCount
    case NaN => 2
    case Int(v) => if v == 0 then 2 else Max(2, v)
  }

  /** The two rules score a die differently exactly when it lies above TN but
      within Focus: the PC rule gives one success, the NPC rule two. */
  lemma PcNpcDieDiffer(v: int, tn: int, focus: int)
    ensures DieSuccesses(v, tn, focus) != NpcDieSuccesses(v, tn, focus) <==> tn < v <= focus
    ensures tn < v <= focus ==> DieSuccesses(v, tn, focus) == 1 && NpcDieSuccesses(v, tn, focus) == 2
  {
  }

  /** With Focus at most TN (the usual case) the two rules agree on any roll. */
  lemma {:induction false} PcNpcAgree(rolls: seq<int>, tn: int, focus: int)
    requires focus <= tn
    ensures RolledSuccesses(rolls, tn, focus) == NpcSuccesses(rolls, tn, focus)
  {
    if rolls != [] {
      PcNpcAgree(rolls[..|rolls| - 1], tn, focus);
      PcNpcDieDiffer(rolls[|rolls| - 1], tn, focus);
    }
  }
}
