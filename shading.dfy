/** The grey level drawStrip gives a vertex: its height mapped linearly from the scanned
    range [lowest, highest] onto [0, 1]. */
module Shading {

  /** A colour component; a zero range makes the floating-point quotient not a number. */
  datatype Intensity = Grey(level: real) | NotANumber

  /** A part of a positive whole, divided by the whole, lies in [0, 1]. */
  lemma QuotientInUnit(a: real, s: real)
    requires 0.0 <= a <= s && 0.0 < s
    ensures 0.0 <= a / s <= 1.0
  {
    var q := a / s;
    assert q * s == a;
    assert (1.0 - q) * s == s - a;
  }

  lemma FractionOfRange(h: real, lowest: real, highest: real)
    requires highest != lowest
    ensures lowest <= h <= highest ==> 0.0 <= (h - lowest) / (highest - lowest) <= 1.0
  {
    if lowest <= h <= highest {
      QuotientInUnit(h - lowest, highest - lowest);
    }
  }

  /** The shade of a vertex at height h, black at `lowest` and white at `highest`. */
  function Shade(h: real, lowest: real, highest: real): (r: Intensity)
    ensures r.Grey? <==> lowest != highest
    ensures r.Grey? && lowest <= h <= highest ==> 0.0 <= r.level <= 1.0
    ensures r.Grey? && h == lowest ==> r.level == 0.0
    ensures r.Grey? && h == highest ==> r.level == 1.0
  {
    var range := highest - lowest;
    if range == 0.0 then NotANumber
    else
      FractionOfRange(h, lowest, highest);
      Grey((h - lowest) / range)
  }

  /** A higher vertex is never drawn darker than a lower one, and the baseline of a range
      symmetric about it is mid-grey. */
  lemma ShadeOrdered(h1: real, h2: real, lowest: real, highest: real)
    requires lowest < highest && h1 <= h2
    ensures Shade(h1, lowest, highest).level <= Shade(h2, lowest, highest).level
    ensures lowest == -highest ==> Shade(0.0, lowest, highest) == Grey(0.5)
  {
    var range := highest - lowest;
    assert (h2 - lowest) / range - (h1 - lowest) / range == (h2 - h1) / range;
    if lowest == -highest {
      var q := (0.0 - lowest) / range;
      assert q * range == highest && range == 2.0 * highest;
      assert (q - 0.5) * range == 0.0 * range;
    }
  }
}
