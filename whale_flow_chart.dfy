/**
 * The whale net-flow chart: one bar per interval whose height is its
 * transaction count and whose opacity grows with its volume, a header with
 * the hovered bar's figures or the totals, and thinned time labels.
 */
module WhaleFlowChart {
  import opened Common
  import opened ChartAxis

  const BAR_SLOT_PX: nat := 10
  const MIN_TRACK_PX: nat := 100

  /** One interval: `{ label, count, volume }`. */
  datatype FlowBar = FlowBar(caption: string, count: real, volume: real)

  function Counts(bars: seq<FlowBar>): (cs: seq<real>)
    ensures |cs| == |bars| && forall i :: 0 <= i < |bars| ==> cs[i] == bars[i].count
  {
    seq(|bars|, i requires 0 <= i < |bars| => bars[i].count)
  }

  function Volumes(bars: seq<FlowBar>): (vs: seq<real>)
    ensures |vs| == |bars| && forall i :: 0 <= i < |bars| ==> vs[i] == bars[i].volume
  {
    seq(|bars|, i requires 0 <= i < |bars| => bars[i].volume)
  }

  /** The header: the hovered bar's count and volume with its label, else the totals and no label. */
  datatype Header = Header(tx: real, vol: real, caption: Option<string>)

  function DisplayHeader(bars: seq<FlowBar>, hover: Option<int>): (h: Header)
    ensures hover.Some? && 0 <= hover.value < |bars| ==>
              h == Header(bars[hover.value].count, bars[hover.value].volume, Some(bars[hover.value].caption))
    ensures !(hover.Some? && 0 <= hover.value < |bars|) ==>
              h == Header(Sum(Counts(bars)), Sum(Volumes(bars)), None)
  {
    if hover.Some? && 0 <= hover.value < |bars| then
      var b := bars[hover.value];
      Header(b.count, b.volume, Some(b.caption))
    else Header(Sum(Counts(bars)), Sum(Volumes(bars)), None)
  }

  /** The volume-driven opacity: 0.3 plus half the share of the largest volume, so within [0.3, 0.8]. */
  function VolumeOpacity(volume: real, maxVolume: real): (o: real)
    requires maxVolume >= 1.0
    ensures o * maxVolume == 0.3 * maxVolume + 0.5 * volume
    ensures 0.0 <= volume <= maxVolume ==> 0.3 <= o <= 0.8
  {
    0.3 + (volume / maxVolume) * 0.5
  }

  /**
   * Bar i's opacity: 1 when hovered, 0.9 for the last bar when nothing is
   * hovered, else the volume-driven opacity against the largest volume.
   */
  function FlowOpacity(bars: seq<FlowBar>, i: nat, hover: Option<int>): (o: real)
    requires i < |bars|
    ensures hover == Some(i as int) ==> o == 1.0
    ensures hover.None? && i == |bars| - 1 ==> o == 0.9
    ensures hover != Some(i as int) && !(hover.None? && i == |bars| - 1) ==>
              o == VolumeOpacity(bars[i].volume, MaxWithOne(Volumes(bars)))
    ensures bars[i].volume >= 0.0 ==> 0.3 <= o <= 1.0
  {
    var maxVolume := MaxWithOne(Volumes(bars));
    assert Volumes(bars)[i] == bars[i].volume;
    if hover == Some(i as int) then 1.0
    else if i == |bars| - 1 && hover.None? then 0.9
    else VolumeOpacity(bars[i].volume, maxVolume)
  }

  /** The scrolling track's minimum width: 10 px per bar, at least 100 px. */
  function MinTrackWidth(n: nat): (px: nat)
    ensures px >= MIN_TRACK_PX && px >= BAR_SLOT_PX * n
    ensures px == MIN_TRACK_PX || px == BAR_SLOT_PX * n
  {
    if BAR_SLOT_PX * n > MIN_TRACK_PX then BAR_SLOT_PX * n else MIN_TRACK_PX
  }

  /** The thinned time labels. */
  function TimeLabels(bars: seq<FlowBar>): (ls: seq<string>)
    ensures |ls| == |Thin(bars)| && |ls| <= LABEL_SLOTS + 1
    ensures forall j :: 0 <= j < |ls| ==> ls[j] == Thin(bars)[j].caption
    ensures bars != [] ==> ls[0] == bars[0].caption && ls[|ls| - 1] == bars[|bars| - 1].caption
  {
    var kept := Thin(bars);
    seq(|kept|, j requires 0 <= j < |kept| => kept[j].caption)
  }

  /** The totals accumulate interval by interval. */
  lemma TotalsAppend(a: seq<FlowBar>, b: seq<FlowBar>)
    ensures Sum(Counts(a + b)) == Sum(Counts(a)) + Sum(Counts(b))
    ensures Sum(Volumes(a + b)) == Sum(Volumes(a)) + Sum(Volumes(b))
  {
    assert Counts(a + b) == Counts(a) + Counts(b);
    assert Volumes(a + b) == Volumes(a) + Volumes(b);
    SumAppend(Counts(a), Counts(b));
    SumAppend(Volumes(a), Volumes(b));
  }

  datatype Bar = Bar(heightPercent: real, opacity: real, minHeight: int)

  datatype View = View(header: Header, bars: seq<Bar>, trackWidth: nat, axis: seq<string>)

  /** The selected timeframe and the hovered bar. */
  class FlowChartModel {
    var tf: Option<string>
    var hover: Option<int>

    constructor (timeframes: seq<string>)
      ensures tf == (if timeframes == [] then None else Some(timeframes[0])) && hover.None?
    {
      tf := if timeframes == [] then None else Some(timeframes[0]);
      hover := None;
    }

    method SelectTimeframe(t: string)
      modifies this
      ensures tf == Some(t) && hover == old(hover)
    {
      tf := Some(t);
    }

    method MouseEnter(i: nat)
      modifies this
      ensures hover == Some(i as int) && tf == old(tf)
    {
      hover := Some(i);
    }

    method MouseLeave()
      modifies this
      ensures hover.None? && tf == old(tf)
    {
      hover := None;
    }

    /** `data[tf] || { bars: [] }`. */
    function BarsFor(data: map<string, seq<FlowBar>>): (bars: seq<FlowBar>)
      reads this
      ensures tf.Some? && tf.value in data ==> bars == data[tf.value]
      ensures !(tf.Some? && tf.value in data) ==> bars == []
    {
      if tf.Some? && tf.value in data then data[tf.value] else []
    }

    function Render(data: map<string, seq<FlowBar>>): (v: View)
      reads this
      ensures var bars := BarsFor(data);
        && v.header == DisplayHeader(bars, hover)
        && |v.bars| == |bars|
        && (forall i :: 0 <= i < |bars| ==>
              v.bars[i] == Bar(HeightPercent(bars[i].count, MaxWithOne(Counts(bars))),
                               FlowOpacity(bars, i, hover), MinHeight(bars[i].count)))
        && v.trackWidth == MinTrackWidth(|bars|)
        && v.axis == TimeLabels(bars)
    {
      var bars := BarsFor(data);
      var maxCount := MaxWithOne(Counts(bars));
      var h := hover;
      View(DisplayHeader(bars, h),
           seq(|bars|, i requires 0 <= i < |bars| =>
             Bar(HeightPercent(bars[i].count, maxCount), FlowOpacity(bars, i, h), MinHeight(bars[i].count))),
           MinTrackWidth(|bars|),
           TimeLabels(bars))
    }
  }
}
