/** The progress bar: the filled width in percent and the bar's height class. */
module ProgressBar {
  /**
   * `max > 0 ? Math.min(100, value / max * 100) : 0`: capped at 100 but not
   * floored, so a negative value gives a negative width.
   */
  function Percent(value: real, max: real): (p: real)
    ensures p <= 100.0
    ensures max <= 0.0 ==> p == 0.0
    ensures max > 0.0 && value >= max ==> p == 100.0
    ensures max > 0.0 && value <= max ==> p * max == value * 100.0
    ensures max > 0.0 && 0.0 <= value ==> p >= 0.0
    ensures max > 0.0 && value < 0.0 ==> p < 0.0
  {
    if max > 0.0 then
      var raw := (value / max) * 100.0;
      if raw < 100.0 then raw else 100.0
    else 0.0
  }

  /** More progress never shows a shorter bar. */
  lemma PercentMonotone(v1: real, v2: real, max: real)
    requires v1 <= v2
    ensures Percent(v1, max) <= Percent(v2, max)
  {
    if max > 0.0 {
      assert v2 / max - v1 / max == (v2 - v1) / max;
    }
  }

  /** The height class: 'sm' and 'md' have their own, anything else is the large bar. */
  function SizeClass(size: string): (c: string)
    ensures size == "sm" ==> c == "h-1.5"
    ensures size == "md" ==> c == "h-2"
    ensures size != "sm" && size != "md" ==> c == "h-3"
  {
    if size == "sm" then "h-1.5" else if size == "md" then "h-2" else "h-3"
  }
}
