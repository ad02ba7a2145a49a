/** Small value types shared by the rules modules. */
module Common {

  datatype Option<+T> = None | Some(value: T)
  {
    /** `x ?? d`: the value, or `d` when there is none. */
    function GetOr(d: T): T
    {
      if Some? then value else d
    }
  }

  /** A JavaScript number as the rules see it after `Number(...)`: an integer,
      or NaN when the stored value is not numeric. Only used where NaN takes a
      branch of its own in the source. */
  datatype Num = Int(v: int) | NaN

  /** `v <= n` in JavaScript: false when `v` is NaN. */
  predicate AtMostNum(v: Num, n: int)
  {
    v.Int? && v.v <= n
  }

  /** `v === n` in JavaScript: false when `v` is NaN. */
  predicate EqualsNum(v: Num, n: int)
  {
    v.Int? && v.v == n
  }

  function Max(a: int, b: int): (r: int)
    ensures r >= a && r >= b && (r == a || r == b)
  {
    if a >= b then a else b
  }

  function Min(a: int, b: int): (r: int)
    ensures r <= a && r <= b && (r == a || r == b)
  {
    if a <= b then a else b
  }

  /** `Math.max(lo, Math.min(hi, n))` for lo <= hi. */
  function Clamp(n: int, lo: int, hi: int): (r: int)
    requires lo <= hi
    ensures lo <= r <= hi
    ensures lo <= n <= hi ==> r == n
    ensures n < lo ==> r == lo
    ensures n > hi ==> r == hi
  {
    Max(lo, Min(hi, n))
  }

  /** Number of positions of `s` holding `x`. */
  function Count<T(==)>(s: seq<T>, x: T): nat
  {
    if s == [] then 0 else (if s[0] == x then 1 else 0) + Count(s[1..], x)
  }
}
