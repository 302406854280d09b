/**
 * The bar chart: per-timeframe series with a primary and an optional
 * secondary mode, a header showing the hovered bar or the last one, bars
 * scaled to the largest value (at least 1), and thinned axis labels.
 */
module BarChart {
  import opened Common
  import opened ChartAxis

  /** `{ labels, primary, secondary }`; `secondary` may be absent. */
  datatype Series = Series(labels: seq<string>, primary: seq<real>, secondary: Option<seq<real>>)

  const EMPTY_SERIES: Series := Series([], [], Some([]))

  /** `data[tf] || { labels: [], primary: [], secondary: [] }`; `tf` is undefined without timeframes. */
  function SeriesFor(data: map<string, Series>, tf: Option<string>): (s: Series)
    ensures tf.Some? && tf.value in data ==> s == data[tf.value]
    ensures !(tf.Some? && tf.value in data) ==> s == EMPTY_SERIES
  {
    if tf.Some? && tf.value in data then data[tf.value] else EMPTY_SERIES
  }

  /**
   * The plotted values: the primary series in mode 0, otherwise the secondary
   * one when present (an empty array included, as it is truthy) and else the primary.
   */
  function Values(s: Series, mode: int): (vs: seq<real>)
    ensures mode == 0 ==> vs == s.primary
    ensures mode != 0 && s.secondary.Some? ==> vs == s.secondary.value
    ensures mode != 0 && s.secondary.None? ==> vs == s.primary
  {
    if mode == 0 then s.primary else if s.secondary.Some? then s.secondary.value else s.primary
  }

  /** A hover index that names an existing entry of a list of length n. */
  predicate HoverValid(hover: Option<int>, n: nat)
  {
    hover.Some? && 0 <= hover.value < n
  }

  datatype Header = NoHeader | Header(value: real, caption: string)

  /**
   * The header: the hovered value when that bar exists, else the last value;
   * the hovered label when it exists and is non-empty, else the last label
   * (or ''). It is hidden exactly when there are no values.
   */
  function DisplayHeader(values: seq<real>, labels: seq<string>, hover: Option<int>): (h: Header)
    ensures h.NoHeader? <==> values == []
    ensures h.Header? && HoverValid(hover, |values|) ==> h.value == values[hover.value]
    ensures h.Header? && !HoverValid(hover, |values|) ==> h.value == values[|values| - 1]
    ensures h.Header? && HoverValid(hover, |labels|) && labels[hover.value] != "" ==> h.caption == labels[hover.value]
    ensures h.Header? && !(HoverValid(hover, |labels|) && labels[hover.value] != "") ==>
              h.caption == (if labels == [] then "" else labels[|labels| - 1])
  {
    var lastLabel := if |labels| > 0 then labels[|labels| - 1] else "";
    if values == [] then NoHeader
    else
      Header(
        if HoverValid(hover, |values|) then values[hover.value] else values[|values| - 1],
        if HoverValid(hover, |labels|) && labels[hover.value] != "" then labels[hover.value] else lastLabel)
  }

  /** Bar i's opacity: 1 when hovered, 0.9 for the last bar when nothing is hovered, else 0.55. */
  function BarOpacity(i: nat, n: nat, hover: Option<int>): (o: real)
    ensures hover == Some(i as int) ==> o == 1.0
    ensures hover.None? && i == n - 1 ==> o == 0.9
    ensures hover != Some(i as int) && !(hover.None? && i == n - 1) ==> o == 0.55
  {
    if hover == Some(i as int) then 1.0 else if i == n - 1 && hover.None? then 0.9 else 0.55
  }

  /** At most one bar is fully opaque, and with no hover only the last bar stands out. */
  lemma OneHighlightedBar(n: nat, hover: Option<int>, i: nat, j: nat)
    requires i < n && j < n && i != j
    ensures !(BarOpacity(i, n, hover) == 1.0 && BarOpacity(j, n, hover) == 1.0)
    ensures hover.None? ==> (BarOpacity(i, n, hover) > 0.55 <==> i == n - 1)
  {
  }

  datatype Bar = Bar(heightPercent: real, opacity: real, minHeight: int)

  datatype View = View(header: Header, bars: seq<Bar>, axis: seq<string>, modeSwitch: bool)

  /** The chart's selected timeframe and mode and the hovered bar. */
  class BarChartModel {
    var tf: Option<string>
    var mode: int
    var hover: Option<int>

    /** The first timeframe is selected; none when the list is empty. */
    constructor (timeframes: seq<string>)
      ensures tf == (if timeframes == [] then None else Some(timeframes[0]))
      ensures mode == 0 && hover.None?
    {
      tf := if timeframes == [] then None else Some(timeframes[0]);
      mode := 0;
      hover := None;
    }

    method SelectTimeframe(t: string)
      modifies this
      ensures tf == Some(t) && mode == old(mode) && hover == old(hover)
    {
      tf := Some(t);
    }

    method SelectMode(i: nat)
      modifies this
      ensures mode == i && tf == old(tf) && hover == old(hover)
    {
      mode := i;
    }

    method MouseEnter(i: nat)
      modifies this
      ensures hover == Some(i as int) && tf == old(tf) && mode == old(mode)
    {
      hover := Some(i);
    }

    method MouseLeave()
      modifies this
      ensures hover.None? && tf == old(tf) && mode == old(mode)
    {
      hover := None;
    }

    /**
     * The chart: one bar per value scaled to `MaxWithOne`, the header, the
     * thinned labels, and the mode switch when more than one mode is named.
     */
    function Render(data: map<string, Series>, modeCount: nat): (v: View)
      reads this
      ensures var s := SeriesFor(data, tf);
        var vs := Values(s, mode);
        && v.header == DisplayHeader(vs, s.labels, hover)
        && |v.bars| == |vs|
        && (forall i :: 0 <= i < |vs| ==>
              v.bars[i] == Bar(HeightPercent(vs[i], MaxWithOne(vs)), BarOpacity(i, |vs|, hover), MinHeight(vs[i])))
        && v.axis == Thin(s.labels)
        && (v.modeSwitch <==> modeCount > 1)
    {
      var s := SeriesFor(data, tf);
      var vs := Values(s, mode);
      var maxV := MaxWithOne(vs);
      var h := hover;
      View(DisplayHeader(vs, s.labels, h),
           seq(|vs|, i requires 0 <= i < |vs| => Bar(HeightPercent(vs[i], maxV), BarOpacity(i, |vs|, h), MinHeight(vs[i]))),
           Thin(s.labels),
           modeCount > 1)
    }
  }

  /** Every bar of a non-negative series fits the chart, and the largest value reaching 1 fills it. */
  lemma BarsFit(vs: seq<real>, i: nat)
    requires i < |vs| && forall j :: 0 <= j < |vs| ==> vs[j] >= 0.0
    ensures 0.0 <= HeightPercent(vs[i], MaxWithOne(vs)) <= 100.0
    ensures vs[i] == MaxWithOne(vs) ==> HeightPercent(vs[i], MaxWithOne(vs)) == 100.0
  {
  }
}
