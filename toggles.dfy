/** Click rules of the sheets' box and dot tracks. Three handlers share one
    rule: clicking box `target` (1-based) sets the value to `target`, except
    that clicking the box holding the current value clears that box. */
module Toggles {
  import opened Common
  import WoundTrack

  /** `(cur === target) ? target - 1 : target`: the clicked box becomes the
      last filled one, unless it already was, in which case it is cleared. */
  function Toggle(cur: int, target: int): (next: int)
    ensures next == target || next == target - 1
    ensures cur == target ==> next == target - 1
    ensures cur != target ==> next == target
  {
    if cur == target then target - 1 else target
  }

  /** Clicking the last filled box twice leaves the track as it was, and any
      other box, clicked twice, ends one below it. */
  lemma ToggleTwice(cur: int, target: int)
    ensures cur == target ==> Toggle(Toggle(cur, target), target) == cur
    ensures cur != target ==> Toggle(Toggle(cur, target), target) == target - 1
  {
  }

  /** Dread box click: the Dread counter becomes the clicked box's global
      index, or one less when it already equals it. No clamping. */
  function DreadBoxClick(target: int, current: int): (next: int)
    ensures next == target || next == target - 1
    ensures next == target - 1 <==> current == target
  {
    Toggle(current, target)
  }

  /** Vehicle damage box click: no update without a value path, a max path or
      with a negative index; otherwise the toggled value clamped to [0, max]. */
  function VehicleBoxClick(hasPaths: bool, idx: int, cur: int, max: int): (update: Option<int>)
    ensures update.None? <==> !hasPaths || idx < 0
    ensures update.Some? ==> 0 <= update.value && (max >= 0 ==> update.value <= max)
    ensures update.Some? && idx < max ==> update.value == Toggle(cur, idx + 1)
    ensures update.Some? && idx >= max ==> update.value == Max(0, max)
  {
    if !hasPaths || idx < 0 then None
    else Some(Max(0, Min(max, Toggle(cur, idx + 1))))
  }

  /** Reload dots of a weapon: the stored count clamped to 0..5. */
  function ReloadUsed(stored: int): (n: nat)
    ensures n <= 5
    ensures 0 <= stored <= 5 ==> n == stored
    ensures stored > 5 ==> n == 5
    ensures stored < 0 ==> n == 0
  {
    Clamp(stored, 0, 5)
  }

  /** Reload dot click: no update without a weapon or with a negative dot;
      otherwise the toggled count clamped to 0..5. */
  function ReloadDotClick(hasWeapon: bool, dotIndex: int, stored: int): (update: Option<nat>)
    ensures update.None? <==> !hasWeapon || dotIndex < 0
    ensures update.Some? ==> update.value <= 5
    ensures update.Some? && dotIndex < 5 ==> update.value == Toggle(ReloadUsed(stored), dotIndex + 1)
    ensures update.Some? && dotIndex >= 5 ==> update.value == 5
  {
    if !hasWeapon || dotIndex < 0 then None
    else Some(Clamp(Toggle(ReloadUsed(stored), dotIndex + 1), 0, 5))
  }

  /** The five reload dots shown for an equipped weapon. */
  function ReloadDots(stored: int): (dots: seq<WoundTrack.Box>)
    ensures |dots| == 5
    ensures forall i :: 0 <= i < 5 ==> dots[i].index == i && (dots[i].checked <==> i < ReloadUsed(stored))
  {
    var used := ReloadUsed(stored);
    seq(5, i requires 0 <= i < 5 => WoundTrack.Box(i, i < used))
  }

  /** Clicking dot i on a weapon whose count is i+1 lowers the count by one;
      clicking the same dot again restores it. */
  lemma ReloadClickTwice(dotIndex: int, stored: int)
    requires 0 <= dotIndex < 5 && 0 <= stored <= 5
    ensures var once := ReloadDotClick(true, dotIndex, stored).value;
            ReloadDotClick(true, dotIndex, once).value
              == (if stored == dotIndex + 1 then stored else dotIndex)
  {
  }
}
