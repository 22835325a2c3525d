/** The forecast-horizon field: `Math.min(14, Math.max(1, v))` (line 260). */
module Horizon {

  const MIN_HORIZON: int := 1
  const MAX_HORIZON: int := 14

  /** `Math.min` on two integers. */
  function Min(a: int, b: int): (r: int)
    ensures r <= a && r <= b && (r == a || r == b)
  {
    if a <= b then a else b
  }

  /** `Math.max` on two integers. */
  function Max(a: int, b: int): (r: int)
    ensures r >= a && r >= b && (r == a || r == b)
  {
    if a >= b then a else b
  }

  /** The value stored on each edit of the horizon field: the point of
      [1, 14] nearest to `v`. */
  function Clamp(v: int): (r: int)
    ensures MIN_HORIZON <= r <= MAX_HORIZON
    ensures MIN_HORIZON <= v <= MAX_HORIZON ==> r == v
    ensures v < MIN_HORIZON ==> r == MIN_HORIZON
    ensures v > MAX_HORIZON ==> r == MAX_HORIZON
  {
    Min(MAX_HORIZON, Max(MIN_HORIZON, v))
  }

  lemma ClampIdempotent(v: int)
    ensures Clamp(Clamp(v)) == Clamp(v)
  {
  }

  /** A larger entry never yields a smaller horizon. */
  lemma ClampMonotone(a: int, b: int)
    requires a <= b
    ensures Clamp(a) <= Clamp(b)
  {
  }

  /** No value of [1, 14] is closer to `v` than `Clamp(v)`. */
  lemma ClampNearest(v: int, h: int)
    requires MIN_HORIZON <= h <= MAX_HORIZON
    ensures (if Clamp(v) <= v then v - Clamp(v) else Clamp(v) - v) <= (if h <= v then v - h else h - v)
  {
  }

  lemma ClampEdges()
    ensures Clamp(0) == 1 && Clamp(1) == 1 && Clamp(14) == 14 && Clamp(15) == 14
  {
  }
}
