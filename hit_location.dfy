/** Hit location: the body region a twenty-sided die selects on an attack. */
module HitLocation {
  import opened Common

  datatype Location = Head | Torso | RightArm | LeftArm | RightLeg | LeftLeg

  /** Position of the band on the d20, from the lowest results upwards. */
  function Rank(l: Location): nat
  {
    match l
    case Head => 0
    case Torso => 1
    case RightArm => 2
    case LeftArm => 3
    case RightLeg => 4
    case LeftLeg => 5
  }

  /** The text the chat card shows. */
  function Label(l: Location): string
  {
    match l
    case Head => "HEAD"
    case Torso => "TORSO"
    case RightArm => "RIGHT ARM"
    case LeftArm => "LEFT ARM"
    case RightLeg => "RIGHT LEG"
    case LeftLeg => "LEFT LEG"
  }

  /** `_mcHitLocation` on a number: inclusive upper bounds 2, 8, 11, 14, 17. */
  function Locate(r: int): (l: Location)
    ensures l == Head <==> r <= 2
    ensures l == Torso <==> 3 <= r <= 8
    ensures l == RightArm <==> 9 <= r <= 11
    ensures l == LeftArm <==> 12 <= r <= 14
    ensures l == RightLeg <==> 15 <= r <= 17
    ensures l == LeftLeg <==> 18 <= r
  {
    if r <= 2 then Head
    else if r <= 8 then Torso
    else if r <= 11 then RightArm
    else if r <= 14 then LeftArm
    else if r <= 17 then RightLeg
    else LeftLeg
  }

  /** `Number(n) || 0`: a value that is not a number is read as 0. */
  function LocateValue(n: Num): (l: Location)
    ensures n.NaN? ==> l == Head
    ensures n.Int? ==> l == Locate(n.v)
  {
    match n
    case Int(v) => Locate(v)
    case NaN => Locate(0)
  }

  /** Higher results never land on an earlier band. */
  lemma LocateMonotone(a: int, b: int)
    requires a <= b
    ensures Rank(Locate(a)) <= Rank(Locate(b))
  {
  }

  /** How many of the results lo..hi land on `l`. */
  function FacesOn(l: Location, lo: int, hi: int): nat
    decreases hi - lo
  {
    if lo > hi then 0 else (if Locate(hi) == l then 1 else 0) + FacesOn(l, lo, hi - 1)
  }

  lemma {:induction false} FacesOnOutside(l: Location, lo: int, hi: int)
    requires forall r :: lo <= r <= hi ==> Locate(r) != l
    ensures FacesOn(l, lo, hi) == 0
    decreases hi - lo
  {
    if lo <= hi {
      FacesOnOutside(l, lo, hi - 1);
    }
  }

  lemma {:induction false} FacesOnSplit(l: Location, lo: int, mid: int, hi: int)
    requires lo <= mid + 1 && mid <= hi
    ensures FacesOn(l, lo, hi) == FacesOn(l, lo, mid) + FacesOn(l, mid + 1, hi)
    decreases hi - mid
  {
    if hi > mid {
      FacesOnSplit(l, lo, mid, hi - 1);
    }
  }

  lemma {:induction false} FacesOnInside(l: Location, lo: int, hi: int)
    requires lo <= hi + 1
    requires forall r :: lo <= r <= hi ==> Locate(r) == l
    ensures FacesOn(l, lo, hi) == hi - lo + 1
    decreases hi - lo
  {
    if lo <= hi {
      FacesOnInside(l, lo, hi - 1);
    }
  }

  /** Band [lo, hi] is all of `l` inside the faces 1..20: that many faces. */
  lemma FacesOfBand(l: Location, lo: int, hi: int)
    requires 1 <= lo <= hi <= 20
    requires forall r :: lo <= r <= hi <==> 1 <= r <= 20 && Locate(r) == l
    ensures FacesOn(l, 1, 20) == hi - lo + 1
  {
    if lo > 1 {
      FacesOnSplit(l, 1, lo - 1, 20);
      assert forall r :: 1 <= r <= lo - 1 ==> Locate(r) != l;
      FacesOnOutside(l, 1, lo - 1);
    }
    FacesOnSplit(l, lo, hi, 20);
    assert forall r :: lo <= r <= hi ==> Locate(r) == l;
    FacesOnInside(l, lo, hi);
    assert forall r :: hi + 1 <= r <= 20 ==> Locate(r) != l;
    FacesOnOutside(l, hi + 1, 20);
  }

  /** On a fair d20 the head is hit on 2 faces, the torso on 6, each limb on 3. */
  lemma D20Distribution()
    ensures FacesOn(Head, 1, 20) == 2
    ensures FacesOn(Torso, 1, 20) == 6
    ensures FacesOn(RightArm, 1, 20) == 3
    ensures FacesOn(LeftArm, 1, 20) == 3
    ensures FacesOn(RightLeg, 1, 20) == 3
    ensures FacesOn(LeftLeg, 1, 20) == 3
  {
    FacesOfBand(Head, 1, 2);
    FacesOfBand(Torso, 3, 8);
    FacesOfBand(RightArm, 9, 11);
    FacesOfBand(LeftArm, 12, 14);
    FacesOfBand(RightLeg, 15, 17);
    FacesOfBand(LeftLeg, 18, 20);
  }
}
