/** Vehicle damage trackers: a current and a maximum per track, shown as boxes. */
module Vehicle {
  import opened Common
  import WoundTrack

  datatype VehicleTrack = VehicleTrack(cur: nat, max: nat, boxes: seq<WoundTrack.Box>)

  /** `mkTrack`: the maximum clamped to 0..30, the current value to 0..max, and
      one box per unit of the maximum, the first `cur` of them checked. */
  function MkTrack(cur: int, max: int): (t: VehicleTrack)
    ensures t.max == Clamp(max, 0, 30) && t.cur == Clamp(cur, 0, t.max)
    ensures |t.boxes| == t.max
    ensures forall i :: 0 <= i < t.max ==> t.boxes[i].index == i && (t.boxes[i].checked <==> i < t.cur)
  {
    var m := Clamp(max, 0, 30);
    var c := Clamp(cur, 0, m);
    VehicleTrack(c, m, seq(m, i requires 0 <= i < m => WoundTrack.Box(i, i < c)))
  }

  /** Number of checked boxes. */
  function CheckedCount(boxes: seq<WoundTrack.Box>): nat
  {
    if boxes == [] then 0
    else CheckedCount(boxes[..|boxes| - 1]) + (if boxes[|boxes| - 1].checked then 1 else 0)
  }

  lemma {:induction false} CheckedPrefix(boxes: seq<WoundTrack.Box>, c: nat)
    requires c <= |boxes|
    requires forall i :: 0 <= i < |boxes| ==> (boxes[i].checked <==> i < c)
    ensures CheckedCount(boxes) == c
  {
    if |boxes| > c {
      var n := |boxes| - 1;
      CheckedPrefix(boxes[..n], c);
    } else if boxes != [] {
      var n := |boxes| - 1;
      CheckedPrefix(boxes[..n], c - 1);
    }
  }

  /** The track shows exactly as many checked boxes as its current value. */
  lemma TrackShowsCurrent(cur: int, max: int)
    ensures CheckedCount(MkTrack(cur, max).boxes) == MkTrack(cur, max).cur
  {
    var t := MkTrack(cur, max);
    CheckedPrefix(t.boxes, t.cur);
  }
}
