/**
 * The health-score gauge: a three-quarter arc from 135 to 405 degrees in
 * three coloured 90-degree segments, and an indicator dot at the score's
 * angle coloured by the score's band. Angle-to-point conversion (cos and sin)
 * is not modelled; angles are degrees.
 */
module HealthScoreGauge {
  import opened Common

  const START_ANGLE: real := 135.0
  const TOTAL_ANGLE: real := 270.0

  const LOW_COLOR: string := "#DD2728"
  const MEDIUM_COLOR: string := "#FED813"
  const HIGH_COLOR: string := "#00B843"

  const COLORS: map<string, string> := map["low" := LOW_COLOR, "medium" := MEDIUM_COLOR, "high" := HIGH_COLOR]

  /** `type || (value < 33 ? 'low' : value < 66 ? 'medium' : 'high')`. */
  function AutoType(kind: Option<string>, value: real): (t: string)
    ensures kind.Some? && kind.value != "" ==> t == kind.value
    ensures !(kind.Some? && kind.value != "") ==>
              (t == "low" <==> value < 33.0) && (t == "medium" <==> 33.0 <= value < 66.0)
              && (t == "high" <==> value >= 66.0)
  {
    if kind.Some? && kind.value != "" then kind.value
    else if value < 33.0 then "low" else if value < 66.0 then "medium" else "high"
  }

  /** The dot's colour: the band's colour; undefined for an explicit type outside the three bands. */
  function IndicatorColor(kind: Option<string>, value: real): (c: Option<string>)
    ensures c.Some? <==> AutoType(kind, value) in COLORS
    ensures c.Some? ==> c.value == COLORS[AutoType(kind, value)]
    ensures !(kind.Some? && kind.value != "") ==> c.Some?
  {
    var t := AutoType(kind, value);
    if t in COLORS then Some(COLORS[t]) else None
  }

  /** An arc segment with its SVG large-arc flag and its stroke. */
  datatype Arc = Arc(start: real, end: real, largeArc: int, stroke: string)

  /** `describeArc`'s large-arc flag: set for a sweep over 180 degrees. */
  function LargeArcFlag(start: real, end: real): (flag: int)
    ensures flag == 1 <==> end - start > 180.0
    ensures flag == 0 <==> end - start <= 180.0
  {
    if end - start > 180.0 then 1 else 0
  }

  /** The three segments: red, yellow, green. */
  function Segments(): (arcs: seq<Arc>)
    ensures |arcs| == 3
  {
    [Arc(START_ANGLE, START_ANGLE + 90.0, LargeArcFlag(START_ANGLE, START_ANGLE + 90.0), LOW_COLOR),
     Arc(START_ANGLE + 90.0, START_ANGLE + 180.0, LargeArcFlag(START_ANGLE + 90.0, START_ANGLE + 180.0), MEDIUM_COLOR),
     Arc(START_ANGLE + 180.0, START_ANGLE + TOTAL_ANGLE, LargeArcFlag(START_ANGLE + 180.0, START_ANGLE + TOTAL_ANGLE), HIGH_COLOR)]
  }

  /**
   * The segments are contiguous, cover the 270-degree sweep, are 90 degrees
   * each, none needs the large-arc flag, and they are stroked red, yellow and
   * green, the colours of the low, medium and high bands.
   */
  lemma SegmentsCoverSweep()
    ensures Segments()[0].start == START_ANGLE && Segments()[2].end == START_ANGLE + TOTAL_ANGLE
    ensures forall i :: 0 <= i < 2 ==> Segments()[i].end == Segments()[i + 1].start
    ensures forall i :: 0 <= i < 3 ==> Segments()[i].end - Segments()[i].start == 90.0 && Segments()[i].largeArc == 0
    ensures Segments()[0].stroke == "#DD2728" == COLORS["low"]
    ensures Segments()[1].stroke == "#FED813" == COLORS["medium"]
    ensures Segments()[2].stroke == "#00B843" == COLORS["high"]
  {
  }

  /** `135 + value / 100 * 270`, with no clamping: 0 maps to 135 and 100 to 405. */
  function IndicatorAngle(value: real): (a: real)
    ensures a == START_ANGLE + 2.7 * value
    ensures value == 0.0 ==> a == START_ANGLE
    ensures value == 100.0 ==> a == START_ANGLE + TOTAL_ANGLE
    ensures START_ANGLE <= a <= START_ANGLE + TOTAL_ANGLE <==> 0.0 <= value <= 100.0
  {
    START_ANGLE + (value / 100.0) * TOTAL_ANGLE
  }

  /** A higher score moves the dot further along the sweep. */
  lemma IndicatorMonotone(v1: real, v2: real)
    requires v1 < v2
    ensures IndicatorAngle(v1) < IndicatorAngle(v2)
  {
  }

  /**
   * The bands' thresholds (33 and 66) are not the arcs' boundaries (100/3 and
   * 200/3): away from those gaps the dot's colour matches the segment under
   * it, but a score of 33 shows a yellow dot on the red segment and a score
   * of 66 a green dot on the yellow one.
   */
  lemma DotColourAgainstSegment(value: real)
    ensures 0.0 <= value < 33.0 ==>
              AutoType(None, value) == "low" && Segments()[0].start <= IndicatorAngle(value) < Segments()[0].end
    ensures 100.0 / 3.0 <= value < 66.0 ==>
              AutoType(None, value) == "medium" && Segments()[1].start <= IndicatorAngle(value) < Segments()[1].end
    ensures 200.0 / 3.0 <= value <= 100.0 ==>
              AutoType(None, value) == "high" && Segments()[2].start <= IndicatorAngle(value) <= Segments()[2].end
    ensures AutoType(None, 33.0) == "medium" && IndicatorAngle(33.0) < Segments()[0].end
    ensures AutoType(None, 66.0) == "high" && IndicatorAngle(66.0) < Segments()[1].end
  {
  }
}
