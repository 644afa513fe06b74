/** The clamp both scroll animations apply to a raw ratio: `Math.max(0, Math.min(1, x))`. */
module Clamp {

  /** `Math.max(0, Math.min(1, x))` on reals: the nearest point of [0, 1] to `x`. */
  function Clamp01(x: real): (r: real)
    ensures 0.0 <= r <= 1.0
    ensures x <= 0.0 ==> r == 0.0
    ensures x >= 1.0 ==> r == 1.0
    ensures 0.0 <= x <= 1.0 ==> r == x
  {
    var upper := if 1.0 < x then 1.0 else x;
    if 0.0 < upper then upper else 0.0
  }

  /** Where the ratio `scrolled / range` of a positive range falls, from where `scrolled` falls. */
  lemma RatioFacts(scrolled: real, range: real)
    requires range > 0.0
    ensures scrolled / range * range == scrolled
    ensures scrolled <= 0.0 ==> scrolled / range <= 0.0
    ensures scrolled >= range ==> scrolled / range >= 1.0
    ensures 0.0 <= scrolled <= range ==> 0.0 <= scrolled / range <= 1.0
  {
  }

  /** Dividing by a positive range keeps the order of two scroll amounts. */
  lemma DivMonotone(a: real, b: real, range: real)
    requires range > 0.0 && a <= b
    ensures a / range <= b / range
  {
    RatioFacts(b - a, range);
    assert b / range - a / range == (b - a) / range;
  }

  /** Clamping never reverses the order of two ratios. */
  lemma Clamp01Monotone(x: real, y: real)
    requires x <= y
    ensures Clamp01(x) <= Clamp01(y)
  {
  }
}
