/** The Dread ladder: five tiers of boxes filled by a cumulative Dread counter,
    and the effect level that lowers the complication range of skill tests. */
module Dread {

  /** A tier: its box count, the cumulative Dread that completes it, and the
      effect level it sets. */
  datatype Tier = Tier(id: nat, faces: string, code: string, boxes: nat, threshold: nat, val: nat)

  const Tiers: seq<Tier> := [
    Tier(0, "20",    "",   1, 1,  0),
    Tier(1, "19-20", "D1", 2, 3,  1),
    Tier(2, "18-20", "D2", 3, 6,  2),
    Tier(3, "17-20", "D3", 4, 10, 3),
    Tier(4, "16-20", "D4", 5, 15, 4)
  ]

  /** One box of the ladder, numbered across all tiers from 1. */
  datatype DreadBox = DreadBox(globalIndex: int, isChecked: bool)

  datatype TierView = TierView(tier: Tier, isComplete: bool, levelBoxes: seq<DreadBox>)

  /** The running `previousThreshold` when tier k is reached. */
  function PrevThreshold(k: nat): nat
    requires k <= |Tiers|
  {
    if k == 0 then 0 else Tiers[k - 1].threshold
  }

  /** What the ladder shows for tier k. */
  function TierViewOf(k: nat, totalDread: int): TierView
    requires k < |Tiers|
  {
    var t := Tiers[k];
    var p := PrevThreshold(k);
    TierView(t, totalDread >= t.threshold,
             seq(t.boxes, i requires 0 <= i < t.boxes => DreadBox(p + i + 1, totalDread >= p + i + 1)))
  }

  /** The value `activeDreadValue` holds after the first k tiers: that of the
      last complete tier seen, 0 before any. */
  function ActiveUpTo(k: nat, totalDread: int): nat
    requires k <= |Tiers|
  {
    if k == 0 then 0
    else if totalDread >= Tiers[k - 1].threshold then Tiers[k - 1].val
    else ActiveUpTo(k - 1, totalDread)
  }

  /** The active Dread effect: with thresholds 1, 3, 6, 10, 15 and values
      0..4, the value of the highest tier reached. */
  function ActiveEffect(totalDread: int): (e: nat)
    ensures e <= 4
    ensures e == if totalDread >= 15 then 4 else if totalDread >= 10 then 3
                 else if totalDread >= 6 then 2 else if totalDread >= 3 then 1 else 0
  {
    ActiveTable(totalDread);
    ActiveUpTo(|Tiers|, totalDread)
  }

  /** The ladder loop of the character sheet: per tier, mark it complete,
      record its value as the active one, and push its boxes with global
      indices continuing from the previous tier's threshold. */
  method DreadLadder(totalDread: int) returns (views: seq<TierView>, active: nat)
    ensures |views| == |Tiers|
    ensures forall k :: 0 <= k < |Tiers| ==> views[k] == TierViewOf(k, totalDread)
    ensures active == ActiveEffect(totalDread)
  {
    views := [];
    active := 0;
    var previousThreshold := 0;
    for k := 0 to |Tiers|
      invariant |views| == k
      invariant previousThreshold == PrevThreshold(k)
      invariant forall j :: 0 <= j < k ==> views[j] == TierViewOf(j, totalDread)
      invariant active == ActiveUpTo(k, totalDread)
    {
      var level := Tiers[k];
      var isComplete := totalDread >= level.threshold;
      if isComplete {
        active := level.val;
      }
      var levelBoxes := [];
      for i := 1 to level.boxes + 1
        invariant |levelBoxes| == i - 1
        invariant forall m :: 0 <= m < i - 1 ==>
          levelBoxes[m] == DreadBox(previousThreshold + m + 1, totalDread >= previousThreshold + m + 1)
      {
        var globalBoxIndex := previousThreshold + i;
        levelBoxes := levelBoxes + [DreadBox(globalBoxIndex, totalDread >= globalBoxIndex)];
      }
      assert levelBoxes == TierViewOf(k, totalDread).levelBoxes;
      previousThreshold := level.threshold;
      views := views + [TierView(level, isComplete, levelBoxes)];
    }
  }

  /** The boxes are numbered 1..15 without gaps: each tier starts right after
      the previous one ends, the first at 1 and the last ending at 15; and
      tier k's last box carries the tier's threshold. */
  lemma BoxesConsecutive(totalDread: int)
    ensures TierViewOf(0, totalDread).levelBoxes[0].globalIndex == 1
    ensures forall k :: 0 <= k < |Tiers| ==>
      |TierViewOf(k, totalDread).levelBoxes| == k + 1
      && TierViewOf(k, totalDread).levelBoxes[k].globalIndex == Tiers[k].threshold
    ensures forall k :: 0 < k < |Tiers| ==>
      TierViewOf(k, totalDread).levelBoxes[0].globalIndex
        == TierViewOf(k - 1, totalDread).levelBoxes[k - 1].globalIndex + 1
    ensures TierViewOf(4, totalDread).levelBoxes[4].globalIndex == 15
  {
    forall k | 0 <= k < |Tiers|
      ensures |TierViewOf(k, totalDread).levelBoxes| == k + 1
      ensures TierViewOf(k, totalDread).levelBoxes[k].globalIndex == Tiers[k].threshold
    {
      assert Tiers[k].boxes == k + 1;
      assert PrevThreshold(k) + k + 1 == Tiers[k].threshold;
    }
  }

  /** A box is checked exactly when the counter has reached its number, and a
      tier is complete exactly when its last box is checked. */
  lemma CompleteIffLastBoxChecked(k: nat, totalDread: int)
    requires k < |Tiers|
    ensures forall i :: 0 <= i < |TierViewOf(k, totalDread).levelBoxes| ==>
      (TierViewOf(k, totalDread).levelBoxes[i].isChecked <==>
         totalDread >= TierViewOf(k, totalDread).levelBoxes[i].globalIndex)
    ensures TierViewOf(k, totalDread).isComplete
      <==> TierViewOf(k, totalDread).levelBoxes[Tiers[k].boxes - 1].isChecked
  {
    assert Tiers[k].boxes == k + 1;
    assert PrevThreshold(k) + k + 1 == Tiers[k].threshold;
  }

  lemma ActiveTable(d: int)
    ensures ActiveUpTo(|Tiers|, d) == if d >= 15 then 4 else if d >= 10 then 3
                               else if d >= 6 then 2 else if d >= 3 then 1 else 0
  {
    if d < 15 {
      assert ActiveUpTo(5, d) == ActiveUpTo(4, d);
      if d < 10 {
        assert ActiveUpTo(4, d) == ActiveUpTo(3, d);
        if d < 6 {
          assert ActiveUpTo(3, d) == ActiveUpTo(2, d);
          if d < 3 {
            assert ActiveUpTo(2, d) == ActiveUpTo(1, d);
          }
        }
      }
    }
  }

  /** The active effect is the value of the highest complete tier, 0 when no
      tier is complete; with thresholds 1, 3, 6, 10, 15 that is the table below. */
  lemma {:induction false} ActiveIsHighestComplete(totalDread: int)
    ensures ActiveEffect(totalDread) <= 4
    ensures (exists k :: 0 <= k < |Tiers| && totalDread >= Tiers[k].threshold) ==>
      exists k :: 0 <= k < |Tiers| && totalDread >= Tiers[k].threshold
        && ActiveEffect(totalDread) == Tiers[k].val
        && forall j :: k < j < |Tiers| ==> totalDread < Tiers[j].threshold
    ensures totalDread < 1 ==> ActiveEffect(totalDread) == 0
    ensures 1 <= totalDread < 3 ==> ActiveEffect(totalDread) == 0
    ensures 3 <= totalDread < 6 ==> ActiveEffect(totalDread) == 1
    ensures 6 <= totalDread < 10 ==> ActiveEffect(totalDread) == 2
    ensures 10 <= totalDread < 15 ==> ActiveEffect(totalDread) == 3
    ensures 15 <= totalDread ==> ActiveEffect(totalDread) == 4
  {
    var k := if totalDread >= 15 then 4 else if totalDread >= 10 then 3
             else if totalDread >= 6 then 2 else if totalDread >= 3 then 1 else 0;
    if totalDread >= 1 {
      assert totalDread >= Tiers[k].threshold;
      assert forall j :: k < j < |Tiers| ==> totalDread < Tiers[j].threshold;
    }
  }

  /** Worked case: seven Dread completes the first three tiers. */
  lemma SevenDread()
    ensures ActiveEffect(7) == 2
    ensures TierViewOf(2, 7).isComplete && !TierViewOf(3, 7).isComplete
  {
  }

  /** More Dread never lowers the effect. */
  lemma ActiveMonotone(a: int, b: int)
    requires a <= b
    ensures ActiveEffect(a) <= ActiveEffect(b)
  {
    ActiveIsHighestComplete(a);
    ActiveIsHighestComplete(b);
  }

  /** The complication range of a PC skill test starts at `20 - effect`. */
  function CompLimit(dreadEffect: int): (limit: int)
    ensures 0 <= dreadEffect <= 4 ==> 16 <= limit <= 20
    ensures dreadEffect == 0 ==> limit == 20
    ensures dreadEffect > 0 ==> limit < 20
  {
    20 - dreadEffect
  }

  /** No Dread effect leaves complications on a natural 20 only; full Dread
      brings them down to 16. */
  lemma CompLimitRange(totalDread: int)
    ensures 16 <= CompLimit(ActiveEffect(totalDread)) <= 20
    ensures totalDread < 3 ==> CompLimit(ActiveEffect(totalDread)) == 20
  {
    ActiveIsHighestComplete(totalDread);
  }
}
