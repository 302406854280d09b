/**
 * The line chart: the series is scaled into a 100 x 100 box with 10% head
 * room, drawn as a smooth path through one point per value, and the mouse
 * selects the point nearest the cursor.
 *
 * The cursor's position in box units (`(clientX - rect.left) / rect.width * 100`)
 * is a parameter; the number formatting of the labels is not modelled.
 */
module LineChart {
  import opened Common
  import opened ChartAxis

  const PAD_X: real := 2.0
  const PAD_Y: real := 4.0
  const W: real := 100.0
  const H: real := 100.0
  const Y_STEPS: nat := 4

  function SeqMin(xs: seq<real>): (m: real)
    requires |xs| > 0
    ensures forall i :: 0 <= i < |xs| ==> m <= xs[i]
    ensures exists i :: 0 <= i < |xs| && xs[i] == m
  {
    if |xs| == 1 then xs[0]
    else
      var rest := SeqMin(xs[1..]);
      assert forall i :: 1 <= i < |xs| ==> xs[i] == xs[1..][i - 1];
      if xs[0] <= rest then xs[0] else rest
  }

  function SeqMax(xs: seq<real>): (m: real)
    requires |xs| > 0
    ensures forall i :: 0 <= i < |xs| ==> xs[i] <= m
    ensures exists i :: 0 <= i < |xs| && xs[i] == m
  {
    if |xs| == 1 then xs[0]
    else
      var rest := SeqMax(xs[1..]);
      assert forall i :: 1 <= i < |xs| ==> xs[i] == xs[1..][i - 1];
      if xs[0] >= rest then xs[0] else rest
  }

  /** The value range of the box. */
  datatype Scale = Scale(lo: real, hi: real)

  /**
   * The range: min and max widened by 10% of their distance on each side, or
   * by 1 for a flat series (`(mx - mn) * 0.1 || 1`). Every value lies
   * strictly inside it.
   */
  function ScaleOf(values: seq<real>): (s: Scale)
    requires |values| > 0
    ensures s.lo < s.hi
    ensures forall i :: 0 <= i < |values| ==> s.lo < values[i] < s.hi
    ensures SeqMin(values) == SeqMax(values) ==> s == Scale(SeqMin(values) - 1.0, SeqMax(values) + 1.0)
    ensures SeqMin(values) < SeqMax(values) ==>
              SeqMin(values) - s.lo == s.hi - SeqMax(values) == (SeqMax(values) - SeqMin(values)) / 10.0
  {
    var mn := SeqMin(values);
    var mx := SeqMax(values);
    var pad := if (mx - mn) * 0.1 != 0.0 then (mx - mn) * 0.1 else 1.0;
    Scale(mn - pad, mx + pad)
  }

  /** Point i of n: evenly spaced from PAD_X to W - PAD_X; a single point sits in the middle. */
  function PointX(i: nat, n: nat): (x: real)
    requires i < n
    ensures n == 1 ==> x == W / 2.0
    ensures n > 1 && i == 0 ==> x == PAD_X
    ensures n > 1 && i == n - 1 ==> x == W - PAD_X
    ensures PAD_X <= x <= W - PAD_X
  {
    if n > 1 then
      FractionAtMostOne(i, n - 1);
      PAD_X + ((i as real) / ((n - 1) as real)) * (W - PAD_X * 2.0)
    else PAD_X + (W - PAD_X * 2.0) / 2.0
  }

  lemma FractionAtMostOne(i: nat, m: nat)
    requires 0 < m && i <= m
    ensures 0.0 <= (i as real) / (m as real) <= 1.0
    ensures i == m ==> (i as real) / (m as real) == 1.0
  {
  }

  /** Neighbouring points are the same distance apart. */
  lemma EvenlySpaced(i: nat, n: nat)
    requires n > 1 && i + 1 < n
    ensures PointX(i + 1, n) - PointX(i, n) == (W - PAD_X * 2.0) / ((n - 1) as real)
  {
    var m := (n - 1) as real;
    assert ((i + 1) as real) / m - (i as real) / m == 1.0 / m;
  }

  /** A value's height: the top of the range at PAD_Y, the bottom at H - PAD_Y. */
  function PointY(v: real, s: Scale): (y: real)
    requires s.lo < s.hi
    ensures s.lo < v < s.hi ==> PAD_Y < y < H - PAD_Y
    ensures (y - PAD_Y) * (s.hi - s.lo) == (H - PAD_Y * 2.0) * (s.hi - v)
  {
    var y := PAD_Y + (H - PAD_Y * 2.0) - ((v - s.lo) / (s.hi - s.lo)) * (H - PAD_Y * 2.0);
    InsideRange(v, s);
    y
  }

  lemma InsideRange(v: real, s: Scale)
    requires s.lo < s.hi
    ensures s.lo < v < s.hi ==> 0.0 < (v - s.lo) / (s.hi - s.lo) < 1.0
  {
    if s.lo < v < s.hi {
      var d := s.hi - s.lo;
      assert (v - s.lo) / d + (s.hi - v) / d == 1.0;
      assert (s.hi - v) / d > 0.0;
    }
  }

  /** A larger value is drawn higher: its y is smaller. */
  lemma HigherValueHigherPoint(v1: real, v2: real, s: Scale)
    requires s.lo < s.hi && v1 < v2
    ensures PointY(v2, s) < PointY(v1, s)
  {
    var d := s.hi - s.lo;
    assert (v2 - s.lo) / d - (v1 - s.lo) / d == (v2 - v1) / d;
  }

  /** A plotted point: `{ x, y, value, label }`; the label is absent past the end of `labels`. */
  datatype Point = Point(x: real, y: real, value: real, caption: Option<string>)

  /** One point per value, in order. */
  function Points(values: seq<real>, labels: seq<string>): (pts: seq<Point>)
    ensures |pts| == |values|
    ensures values != [] ==> forall i :: 0 <= i < |values| ==>
              pts[i] == Point(PointX(i, |values|), PointY(values[i], ScaleOf(values)), values[i],
                              if i < |labels| then Some(labels[i]) else None)
    ensures forall i :: 0 <= i < |pts| ==> PAD_Y < pts[i].y < H - PAD_Y && PAD_X <= pts[i].x <= W - PAD_X
  {
    if values == [] then []
    else
      var s := ScaleOf(values);
      seq(|values|, i requires 0 <= i < |values| =>
        Point(PointX(i, |values|), PointY(values[i], s), values[i], if i < |labels| then Some(labels[i]) else None))
  }

  /** A grid line: its height and the value it marks. */
  datatype YLabel = YLabel(y: real, value: real)

  /** The grid line `k` quarters up from the bottom of the range `lo`..`hi`. */
  function GridLine(k: nat, lo: real, hi: real): YLabel
  {
    var f := (k as real) / (Y_STEPS as real);
    YLabel(PAD_Y + (H - PAD_Y * 2.0) - f * (H - PAD_Y * 2.0), lo + (hi - lo) * f)
  }

  /** Neighbouring grid lines are a quarter of the plot height and a quarter of the range apart. */
  lemma GridSteps(lo: real, hi: real)
    ensures forall k: nat :: k < Y_STEPS ==>
              GridLine(k, lo, hi).y - GridLine(k + 1, lo, hi).y == (H - PAD_Y * 2.0) / (Y_STEPS as real)
              && GridLine(k + 1, lo, hi).value - GridLine(k, lo, hi).value == (hi - lo) / (Y_STEPS as real)
  {
    forall k: nat | k < Y_STEPS
      ensures GridLine(k, lo, hi).y - GridLine(k + 1, lo, hi).y == (H - PAD_Y * 2.0) / (Y_STEPS as real)
      ensures GridLine(k + 1, lo, hi).value - GridLine(k, lo, hi).value == (hi - lo) / (Y_STEPS as real)
    {
      var f := (k as real) / (Y_STEPS as real);
      var g := ((k + 1) as real) / (Y_STEPS as real);
      assert g == f + 0.25;
      QuarterStep(hi - lo, f, g);
    }
  }

  /** The bottom grid line marks the range's low end and the top one its high end. */
  lemma GridEnds(lo: real, hi: real)
    ensures GridLine(0, lo, hi) == YLabel(H - PAD_Y, lo)
    ensures GridLine(Y_STEPS, lo, hi) == YLabel(PAD_Y, hi)
  {
    var d := hi - lo;
    assert d * 0.0 == 0.0 && d * 1.0 == d;
  }

  lemma QuarterStep(d: real, f: real, g: real)
    requires g == f + 0.25
    ensures d * g - d * f == d / 4.0
  {
    assert d * g == d * f + d * 0.25;
  }

  /** Five grid lines from the bottom of the range to its top, a quarter apart. */
  function YLabels(values: seq<real>): (ls: seq<YLabel>)
    ensures values == [] ==> ls == []
    ensures values != [] ==> |ls| == Y_STEPS + 1
    ensures values != [] ==> ls[0] == YLabel(H - PAD_Y, ScaleOf(values).lo)
    ensures values != [] ==> ls[Y_STEPS] == YLabel(PAD_Y, ScaleOf(values).hi)
    ensures values != [] ==> forall i :: 0 <= i < Y_STEPS ==>
              ls[i].y - ls[i + 1].y == (H - PAD_Y * 2.0) / (Y_STEPS as real)
              && ls[i + 1].value - ls[i].value == (ScaleOf(values).hi - ScaleOf(values).lo) / (Y_STEPS as real)
  {
    if values == [] then []
    else
      var s := ScaleOf(values);
      GridSteps(s.lo, s.hi);
      GridEnds(s.lo, s.hi);
      seq(Y_STEPS + 1, i requires 0 <= i <= Y_STEPS => GridLine(i, s.lo, s.hi))
  }

  /** The path's drawing commands. */
  datatype Cmd = MoveTo(x: real, y: real) | CurveTo(c1x: real, c1y: real, c2x: real, c2y: real, x: real, y: real)
               | LineTo(x: real, y: real) | Close

  /**
   * The line: a move to the first point, then a cubic curve to each next
   * point whose control points sit at the horizontal midpoint, level with
   * the previous and the current point.
   */
  method LinePath(pts: seq<Point>) returns (d: seq<Cmd>)
    requires |pts| > 0
    ensures |d| == |pts|
    ensures d[0] == MoveTo(pts[0].x, pts[0].y)
    ensures forall i :: 1 <= i < |pts| ==>
              d[i] == CurveTo((pts[i - 1].x + pts[i].x) / 2.0, pts[i - 1].y,
                              (pts[i - 1].x + pts[i].x) / 2.0, pts[i].y, pts[i].x, pts[i].y)
  {
    d := [MoveTo(pts[0].x, pts[0].y)];
    var i := 1;
    while i < |pts|
      invariant 1 <= i <= |pts| && |d| == i
      invariant d[0] == MoveTo(pts[0].x, pts[0].y)
      invariant forall k :: 1 <= k < i ==>
                  d[k] == CurveTo((pts[k - 1].x + pts[k].x) / 2.0, pts[k - 1].y,
                                  (pts[k - 1].x + pts[k].x) / 2.0, pts[k].y, pts[k].x, pts[k].y)
    {
      var prev := pts[i - 1];
      var curr := pts[i];
      var cpx := (prev.x + curr.x) / 2.0;
      d := d + [CurveTo(cpx, prev.y, cpx, curr.y, curr.x, curr.y)];
      i := i + 1;
    }
  }

  /** The filled area: the line, down to the baseline under the last point, back under the first, closed. */
  method AreaPath(pts: seq<Point>) returns (area: seq<Cmd>)
    requires |pts| > 0
    ensures |area| == |pts| + 3
    ensures area[|pts|..] == [LineTo(pts[|pts| - 1].x, H - PAD_Y), LineTo(pts[0].x, H - PAD_Y), Close]
    ensures area[0] == MoveTo(pts[0].x, pts[0].y)
    ensures forall i :: 1 <= i < |pts| ==>
              area[i] == CurveTo((pts[i - 1].x + pts[i].x) / 2.0, pts[i - 1].y,
                                 (pts[i - 1].x + pts[i].x) / 2.0, pts[i].y, pts[i].x, pts[i].y)
  {
    var d := LinePath(pts);
    area := d + [LineTo(pts[|pts| - 1].x, H - PAD_Y), LineTo(pts[0].x, H - PAD_Y), Close];
    assert forall i :: 0 <= i < |pts| ==> area[i] == d[i];
  }

  /** The cursor's distance to a point. */
  function Dist(p: Point, xCoord: real): real
  {
    if p.x >= xCoord then p.x - xCoord else xCoord - p.x
  }

  /**
   * `handleMouseMove`'s search: the first index of a point nearest the
   * cursor; 0 when there are no points.
   */
  method NearestPoint(pts: seq<Point>, xCoord: real) returns (closest: nat)
    ensures pts == [] ==> closest == 0
    ensures pts != [] ==> closest < |pts|
    ensures pts != [] ==> forall j :: 0 <= j < |pts| ==> Dist(pts[closest], xCoord) <= Dist(pts[j], xCoord)
    ensures pts != [] ==> forall j :: 0 <= j < closest ==> Dist(pts[closest], xCoord) < Dist(pts[j], xCoord)
  {
    closest := 0;
    // None stands for the initial Infinity.
    var closestDist: Option<real> := None;
    var i := 0;
    while i < |pts|
      invariant 0 <= i <= |pts|
      invariant i == 0 <==> closestDist.None?
      invariant i > 0 ==> closest < i && closestDist == Some(Dist(pts[closest], xCoord))
      invariant i == 0 ==> closest == 0
      invariant forall j :: 0 <= j < i ==> Dist(pts[closest], xCoord) <= Dist(pts[j], xCoord)
      invariant forall j :: 0 <= j < closest ==> Dist(pts[closest], xCoord) < Dist(pts[j], xCoord)
    {
      var d := Dist(pts[i], xCoord);
      if closestDist.None? || d < closestDist.value {
        closestDist := Some(d);
        closest := i;
      }
      i := i + 1;
    }
  }

  /** The hovered point when it exists. */
  function ActivePoint(pts: seq<Point>, hover: Option<int>): (p: Option<Point>)
    ensures p.Some? <==> hover.Some? && 0 <= hover.value < |pts|
    ensures p.Some? ==> p.value == pts[hover.value]
  {
    if hover.Some? && 0 <= hover.value < |pts| then Some(pts[hover.value]) else None
  }

  /** The header's point: the hovered one when it exists, else the last; none without points. */
  function DisplayPoint(pts: seq<Point>, hover: Option<int>): (p: Option<Point>)
    ensures p.None? <==> pts == []
    ensures ActivePoint(pts, hover).Some? ==> p == ActivePoint(pts, hover)
    ensures ActivePoint(pts, hover).None? && pts != [] ==> p == Some(pts[|pts| - 1])
  {
    if hover.Some? && 0 <= hover.value < |pts| then Some(pts[hover.value])
    else if pts != [] then Some(pts[|pts| - 1]) else None
  }

  /** The marker on the last point shows only when there is one and nothing is hovered. */
  function ShowLastDot(pts: seq<Point>, hover: Option<int>): (b: bool)
    ensures b <==> pts != [] && hover.None?
  {
    pts != [] && hover.None?
  }

  /** `{ labels, values }` of one timeframe. */
  datatype Series = Series(labels: seq<string>, values: seq<real>)

  datatype View = View(
    header: Option<Point>,
    points: seq<Point>,
    grid: seq<YLabel>,
    activeDot: Option<Point>,
    lastDot: bool,
    axis: seq<string>)

  /** The chart's timeframe and hovered index. */
  class LineChartModel {
    var tf: Option<string>
    var hover: Option<int>

    constructor (timeframes: seq<string>)
      ensures tf == (if timeframes == [] then None else Some(timeframes[0])) && hover.None?
    {
      tf := if timeframes == [] then None else Some(timeframes[0]);
      hover := None;
    }

    method SelectTimeframe(t: string)
      modifies this
      ensures tf == Some(t) && hover == old(hover)
    {
      tf := Some(t);
    }

    /** A move over the chart hovers the nearest point; afterwards exactly that point shows, with no last-dot marker. */
    method MouseMove(pts: seq<Point>, xCoord: real)
      modifies this
      ensures tf == old(tf) && hover.Some?
      ensures pts != [] ==> ActivePoint(pts, hover).Some? && !ShowLastDot(pts, hover)
      ensures pts != [] ==> forall j :: 0 <= j < |pts| ==>
                Dist(DisplayPoint(pts, hover).value, xCoord) <= Dist(pts[j], xCoord)
      ensures pts == [] ==> hover == Some(0) && DisplayPoint(pts, hover).None?
      ensures pts != [] ==> hover.value < |pts|
      ensures pts != [] ==> forall j :: 0 <= j < hover.value ==> Dist(pts[hover.value], xCoord) < Dist(pts[j], xCoord)
    {
      var closest := NearestPoint(pts, xCoord);
      hover := Some(closest);
    }

    method MouseLeave()
      modifies this
      ensures hover.None? && tf == old(tf)
    {
      hover := None;
    }

    /** `data[tf] || { labels: [], values: [] }`. */
    function SeriesFor(data: map<string, Series>): (s: Series)
      reads this
      ensures tf.Some? && tf.value in data ==> s == data[tf.value]
      ensures !(tf.Some? && tf.value in data) ==> s == Series([], [])
    {
      if tf.Some? && tf.value in data then data[tf.value] else Series([], [])
    }

    function Render(data: map<string, Series>): (v: View)
      reads this
      ensures var s := SeriesFor(data);
        var pts := Points(s.values, s.labels);
        && v.points == pts && v.grid == YLabels(s.values)
        && v.header == DisplayPoint(pts, hover)
        && v.activeDot == ActivePoint(pts, hover)
        && v.lastDot == ShowLastDot(pts, hover)
        && v.axis == Thin(s.labels)
    {
      var s := SeriesFor(data);
      var pts := Points(s.values, s.labels);
      View(DisplayPoint(pts, hover), pts, YLabels(s.values), ActivePoint(pts, hover),
           ShowLastDot(pts, hover), Thin(s.labels))
    }
  }

  /**
   * A hover left over from a longer series names no point: the header falls
   * back to the last point, yet neither dot is drawn.
   */
  lemma StaleHoverShowsNoDot(pts: seq<Point>, h: int)
    requires pts != [] && h >= |pts|
    ensures DisplayPoint(pts, Some(h)) == Some(pts[|pts| - 1])
    ensures ActivePoint(pts, Some(h)).None? && !ShowLastDot(pts, Some(h))
  {
  }
}
