/** The integer and real helpers of Unity's Mathf that the game's clamps are written with. */
module Mathf {
  function Max(a: int, b: int): int { if a >= b then a else b }
  function Min(a: int, b: int): int { if a <= b then a else b }
  function RealMax(a: real, b: real): real { if a >= b then a else b }

  /** Mathf.Clamp: lo when below, else hi when above, else the value itself. */
  function Clamp(v: int, lo: int, hi: int): (r: int)
    ensures lo <= hi ==> lo <= r <= hi
    ensures lo <= v <= hi ==> r == v
    ensures v < lo ==> r == lo
    ensures lo <= hi < v ==> r == hi
  {
    if v < lo then lo else if v > hi then hi else v
  }
}
