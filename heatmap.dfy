/**
 * The treemap-style heatmap: items of the chosen timeframe are ordered by the
 * size of their change, weighted, and cut greedily into rows of roughly equal
 * weight; a click toggles the selected cell.
 */
module Heatmap {
  import opened Common

  /** One market item of a timeframe. */
  datatype Item = Item(id: string, name: string, change: real)

  /** An item with its share of the total weight. */
  datatype Block = Block(item: Item, weight: real)

  /** One row of the layout and the total weight of its blocks. */
  datatype Row = Row(blocks: seq<Block>, weight: real)

  /** The smallest weight an item can carry. */
  const MIN_WEIGHT: real := 0.5
  /** Changes of this size or more get full colour intensity. */
  const FULL_INTENSITY_CHANGE: real := 30.0

  function Abs(x: real): (r: real)
    ensures r >= 0.0 && (r == x || r == -x)
  {
    if x >= 0.0 then x else -x
  }

  /** `data[tf] || []`; `tf` is undefined without timeframes. */
  function ItemsOf(data: map<string, seq<Item>>, tf: Option<string>): (items: seq<Item>)
    ensures tf.Some? && tf.value in data ==> items == data[tf.value]
    ensures !(tf.Some? && tf.value in data) ==> items == []
  {
    if tf.Some? && tf.value in data then data[tf.value] else []
  }

  // ---------------------------------------------------------------------
  // Ordering by |change|
  // ---------------------------------------------------------------------

  predicate SortedByMagnitude(s: seq<Item>)
  {
    forall i, j :: 0 <= i < j < |s| ==> Abs(s[i].change) >= Abs(s[j].change)
  }

  /** Insert `x` before the first element whose magnitude is at most its own, so ahead of any equal ones. */
  function InsertByMagnitude(x: Item, s: seq<Item>): (r: seq<Item>)
    ensures multiset(r) == multiset(s) + multiset{x}
    ensures |r| == |s| + 1
    ensures forall j :: 0 <= j < |r| ==> r[j] == x || r[j] in s
  {
    if s == [] then [x]
    else if Abs(x.change) >= Abs(s[0].change) then [x] + s
    else
      assert s == [s[0]] + s[1..];
      [s[0]] + InsertByMagnitude(x, s[1..])
  }

  lemma {:induction false} InsertKeepsSorted(x: Item, s: seq<Item>)
    requires SortedByMagnitude(s)
    ensures SortedByMagnitude(InsertByMagnitude(x, s))
    decreases |s|
  {
    if s != [] && Abs(x.change) < Abs(s[0].change) {
      InsertKeepsSorted(x, s[1..]);
      var t := InsertByMagnitude(x, s[1..]);
      var r := InsertByMagnitude(x, s);
      assert r == [s[0]] + t;
      forall j | 0 <= j < |t| ensures Abs(s[0].change) >= Abs(t[j].change) {
        if t[j] != x {
          var k :| 0 <= k < |s[1..]| && s[1..][k] == t[j];
          assert s[k + 1] == t[j];
        }
      }
    }
  }

  /**
   * `[...items].sort((a, b) => |b.change| - |a.change|)`: a stable sort into
   * non-increasing magnitude of change.
   */
  function SortByMagnitude(s: seq<Item>): (r: seq<Item>)
    ensures multiset(r) == multiset(s) && |r| == |s|
  {
    if s == [] then []
    else
      assert s == [s[0]] + s[1..];
      InsertByMagnitude(s[0], SortByMagnitude(s[1..]))
  }

  /** The items of magnitude exactly `m`. */
  function OfMagnitude(s: seq<Item>, m: real): seq<Item>
  {
    Filter(s, (x: Item) => Abs(x.change) == m)
  }

  /** Inserting `x` passes only items of larger magnitude, so among its equals it comes first. */
  lemma {:induction false} InsertOfMagnitude(x: Item, t: seq<Item>, m: real)
    ensures OfMagnitude(InsertByMagnitude(x, t), m)
            == (if Abs(x.change) == m then [x] else []) + OfMagnitude(t, m)
    decreases |t|
  {
    var p := (y: Item) => Abs(y.change) == m;
    if t == [] {
      FilterCons(x, [], p);
    } else if Abs(x.change) >= Abs(t[0].change) {
      FilterCons(x, t, p);
    } else {
      assert t == [t[0]] + t[1..];
      InsertOfMagnitude(x, t[1..], m);
      FilterCons(t[0], InsertByMagnitude(x, t[1..]), p);
      FilterCons(t[0], t[1..], p);
    }
  }

  /**
   * The sort is stable, as `Array.prototype.sort` is: items of equal magnitude
   * keep their relative order.
   */
  lemma {:induction false} SortByMagnitudeStable(s: seq<Item>, m: real)
    ensures OfMagnitude(SortByMagnitude(s), m) == OfMagnitude(s, m)
    decreases |s|
  {
    if s != [] {
      SortByMagnitudeStable(s[1..], m);
      InsertOfMagnitude(s[0], SortByMagnitude(s[1..]), m);
      assert s == [s[0]] + s[1..];
      FilterCons(s[0], s[1..], (y: Item) => Abs(y.change) == m);
    }
  }

  lemma {:induction false} SortByMagnitudeSorted(s: seq<Item>)
    ensures SortedByMagnitude(SortByMagnitude(s))
    decreases |s|
  {
    if s != [] {
      SortByMagnitudeSorted(s[1..]);
      InsertKeepsSorted(s[0], SortByMagnitude(s[1..]));
    }
  }

  // ---------------------------------------------------------------------
  // Weights
  // ---------------------------------------------------------------------

  /** An item's raw weight: its magnitude of change, at least 0.5. */
  function RawWeight(x: Item): (w: real)
    ensures w >= MIN_WEIGHT && w >= Abs(x.change)
  {
    Max(Abs(x.change), MIN_WEIGHT)
  }

  function TotalRaw(s: seq<Item>): (t: real)
    ensures t >= MIN_WEIGHT * (|s| as real)
  {
    if s == [] then 0.0 else TotalRaw(s[..|s| - 1]) + RawWeight(s[|s| - 1])
  }

  /** Total weight of a run of blocks. */
  function Weight(s: seq<Block>): real
  {
    if s == [] then 0.0 else Weight(s[..|s| - 1]) + s[|s| - 1].weight
  }

  /** Each item with its raw weight divided by `total`. */
  function ScaledBlocks(s: seq<Item>, total: real): (bs: seq<Block>)
    requires total > 0.0
    ensures |bs| == |s|
    ensures forall i :: 0 <= i < |s| ==> bs[i] == Block(s[i], RawWeight(s[i]) / total)
  {
    if s == [] then [] else ScaledBlocks(s[..|s| - 1], total) + [Block(s[|s| - 1], RawWeight(s[|s| - 1]) / total)]
  }

  /** `blocks`: the sorted items, each with its raw weight over the total. */
  function Blocks(items: seq<Item>): (bs: seq<Block>)
    ensures |bs| == |items|
    ensures items == [] ==> bs == []
  {
    if items == [] then []
    else
      var sorted := SortByMagnitude(items);
      ScaledBlocks(sorted, TotalRaw(sorted))
  }

  /** The blocks carry the items in order of non-increasing magnitude: a sorted permutation. */
  lemma BlocksAreSortedItems(items: seq<Item>)
    ensures var bs := Blocks(items);
      var order := seq(|bs|, i requires 0 <= i < |bs| => bs[i].item);
      multiset(order) == multiset(items) && SortedByMagnitude(order)
  {
    SortByMagnitudeSorted(items);
    var bs := Blocks(items);
    var order := seq(|bs|, i requires 0 <= i < |bs| => bs[i].item);
    if items != [] {
      assert order == SortByMagnitude(items);
    }
  }

  lemma DivAdd(a: real, b: real, t: real)
    requires t > 0.0
    ensures a / t + b / t == (a + b) / t
  {
  }

  lemma {:induction false} WeightOfScaled(s: seq<Item>, total: real)
    requires total > 0.0
    ensures Weight(ScaledBlocks(s, total)) == TotalRaw(s) / total
    decreases |s|
  {
    if s != [] {
      var init := s[..|s| - 1];
      WeightOfScaled(init, total);
      var bs := ScaledBlocks(s, total);
      assert bs[..|bs| - 1] == ScaledBlocks(init, total);
      DivAdd(TotalRaw(init), RawWeight(s[|s| - 1]), total);
    }
  }

  lemma DivSelf(t: real)
    requires t > 0.0
    ensures t / t == 1.0
  {
  }

  lemma DivPositive(a: real, t: real)
    requires a > 0.0 && t > 0.0
    ensures a / t > 0.0
  {
  }

  /** Every block weighs more than zero and, for a non-empty timeframe, the weights sum to 1. */
  lemma BlockWeightsNormalised(items: seq<Item>)
    ensures var bs := Blocks(items);
      && (forall i :: 0 <= i < |bs| ==> bs[i].weight > 0.0)
      && (items != [] ==> Weight(bs) == 1.0)
  {
    if items != [] {
      var sorted := SortByMagnitude(items);
      var total := TotalRaw(sorted);
      assert total > 0.0;
      var bs := ScaledBlocks(sorted, total);
      assert Blocks(items) == bs;
      forall i | 0 <= i < |bs| ensures bs[i].weight > 0.0 {
        DivPositive(RawWeight(sorted[i]), total);
      }
      WeightOfScaled(sorted, total);
      DivSelf(total);
    }
  }

  // ---------------------------------------------------------------------
  // Greedy row partition
  // ---------------------------------------------------------------------

  /** `Math.ceil(Math.sqrt(n))` as the least k with k * k >= n. */
  function CeilSqrt(n: nat): (k: nat)
    ensures k * k >= n && (k == 0 || (k - 1) * (k - 1) < n)
    ensures n > 0 ==> k >= 1
  {
    CeilSqrtFrom(n, 0)
  }

  function CeilSqrtFrom(n: nat, k: nat): (r: nat)
    requires k == 0 || (k - 1) * (k - 1) < n
    ensures r * r >= n && (r == 0 || (r - 1) * (r - 1) < n) && r >= k
    decreases n - k
  {
    if k * k >= n then k
    else
      assert k == 0 || k * k >= k;
      CeilSqrtFrom(n, k + 1)
  }

  /** The weight a row must reach before it is closed. */
  function TargetRowWeight(n: nat): (t: real)
    requires n > 0
    ensures 0.0 < t <= 1.0
  {
    1.0 / (CeilSqrt(n) as real)
  }

  /** Concatenation of the rows' blocks. */
  function Flatten(rows: seq<Row>): seq<Block>
  {
    if rows == [] then [] else Flatten(rows[..|rows| - 1]) + rows[|rows| - 1].blocks
  }

  /** Every proper prefix of `s`, and `s` itself when `whole`, weighs less than `target`. */
  predicate PrefixesBelow(s: seq<Block>, target: real, whole: bool)
  {
    forall k :: 0 <= k <= |s| && (k < |s| || whole) ==> Weight(s[..k]) < target
  }

  /** A row the loop closed: weight at least the target, reached at its last block. */
  predicate ClosedRow(r: Row, target: real)
  {
    r.blocks != [] && r.weight == Weight(r.blocks) && r.weight >= target
    && PrefixesBelow(r.blocks, target, false)
  }

  /** Every row of `rows` was closed by the loop. */
  predicate AllClosed(rows: seq<Row>, target: real)
  {
    forall j :: 0 <= j < |rows| ==> ClosedRow(rows[j], target)
  }

  lemma AllClosedSnoc(rows: seq<Row>, r: Row, target: real)
    requires AllClosed(rows, target) && ClosedRow(r, target)
    ensures AllClosed(rows + [r], target)
  {
  }

  /**
   * What the partition promises of its rows: each is non-empty and carries
   * its own weight; all but the last were closed; the last was closed or is
   * a leftover lighter than the target.
   */
  predicate GreedyRows(rows: seq<Row>, target: real)
  {
    && (forall i :: 0 <= i < |rows| ==> rows[i].blocks != [] && rows[i].weight == Weight(rows[i].blocks))
    && (forall i :: 0 <= i < |rows| - 1 ==> ClosedRow(rows[i], target))
    && (rows != [] ==>
          var last := rows[|rows| - 1];
          ClosedRow(last, target)
          || (PrefixesBelow(last.blocks, target, true) && last.weight < target))
  }

  lemma AllClosedAreGreedy(rows: seq<Row>, target: real)
    requires AllClosed(rows, target)
    ensures GreedyRows(rows, target)
  {
  }

  lemma LeftoverIsGreedy(rows: seq<Row>, r: Row, target: real)
    requires AllClosed(rows, target)
    requires r.blocks != [] && r.weight == Weight(r.blocks)
    requires PrefixesBelow(r.blocks, target, true) && r.weight < target
    ensures GreedyRows(rows + [r], target)
  {
    var rs := rows + [r];
    assert forall i :: 0 <= i < |rows| ==> rs[i] == rows[i];
  }

  lemma FlattenSnoc(rows: seq<Row>, r: Row)
    ensures Flatten(rows + [r]) == Flatten(rows) + r.blocks
  {
    assert (rows + [r])[..|rows|] == rows;
  }

  /** Adding a block to a row whose every prefix is light; it closes if it reaches the target. */
  lemma GrowRow(row: seq<Block>, b: Block, target: real)
    requires PrefixesBelow(row, target, true)
    ensures Weight(row + [b]) == Weight(row) + b.weight
    ensures Weight(row + [b]) >= target ==> ClosedRow(Row(row + [b], Weight(row + [b])), target)
    ensures Weight(row + [b]) < target ==> PrefixesBelow(row + [b], target, true)
  {
    PrefixesExtend(row, b, target);
    assert (row + [b])[..|row|] == row;
    assert (row + [b])[..|row + [b]|] == row + [b];
  }

  lemma PrefixesExtend(row: seq<Block>, b: Block, target: real)
    requires PrefixesBelow(row, target, true)
    ensures PrefixesBelow(row + [b], target, false)
  {
    forall k | 0 <= k < |row + [b]| ensures Weight((row + [b])[..k]) < target {
      assert (row + [b])[..k] == row[..k];
    }
  }

  /** The loop's state: the closed rows and the open row spell out the blocks taken so far. */
  predicate Building(rows: seq<Row>, row: seq<Block>, done: seq<Block>, target: real)
  {
    Flatten(rows) + row == done && PrefixesBelow(row, target, true) && AllClosed(rows, target)
  }

  /** Taking the next block keeps the loop's state, closing the row once it reaches the target. */
  lemma TakeBlock(rows: seq<Row>, row: seq<Block>, b: Block, done: seq<Block>, target: real)
    requires target > 0.0 && Building(rows, row, done, target)
    ensures Weight(row + [b]) == Weight(row) + b.weight
    ensures Weight(row + [b]) >= target ==>
              Building(rows + [Row(row + [b], Weight(row + [b]))], [], done + [b], target)
    ensures Weight(row + [b]) < target ==> Building(rows, row + [b], done + [b], target)
  {
    GrowRow(row, b, target);
    if Weight(row + [b]) >= target {
      CloseRow(rows, row + [b], done + [b], target);
    }
  }

  lemma CloseRow(rows: seq<Row>, row: seq<Block>, done: seq<Block>, target: real)
    requires target > 0.0 && Flatten(rows) + row == done && AllClosed(rows, target)
    requires ClosedRow(Row(row, Weight(row)), target)
    ensures Building(rows + [Row(row, Weight(row))], [], done, target)
  {
    var closed := Row(row, Weight(row));
    FlattenSnoc(rows, closed);
    AllClosedSnoc(rows, closed, target);
    var empty: seq<Block> := [];
    assert PrefixesBelow(empty, target, true) by {
      assert empty[..0] == empty;
    }
  }

  /**
   * `rows`: walk the blocks, closing the current row as soon as its weight
   * reaches the target, then keep a non-empty leftover row.
   */
  method Rows(blocks: seq<Block>) returns (rows: seq<Row>)
    ensures blocks == [] ==> rows == []
    ensures Flatten(rows) == blocks
    ensures blocks != [] ==> GreedyRows(rows, TargetRowWeight(|blocks|))
  {
    if blocks == [] {
      return [];
    }
    var target := TargetRowWeight(|blocks|);
    var row, rowWeight;
    rows, row, rowWeight := CloseRows(blocks, target);
    if |row| > 0 {
      FlattenSnoc(rows, Row(row, rowWeight));
      assert row[..|row|] == row;
      LeftoverIsGreedy(rows, Row(row, rowWeight), target);
      rows := rows + [Row(row, rowWeight)];
    } else {
      AllClosedAreGreedy(rows, target);
    }
  }

  /** The loop of `rows`: the closed rows, and the open row with its weight, once every block is taken. */
  method CloseRows(blocks: seq<Block>, target: real) returns (rows: seq<Row>, row: seq<Block>, rowWeight: real)
    requires target > 0.0
    ensures Building(rows, row, blocks, target) && rowWeight == Weight(row)
  {
    rows := [];
    row := [];
    rowWeight := 0.0;
    var i := 0;
    while i < |blocks|
      invariant 0 <= i <= |blocks|
      invariant Building(rows, row, blocks[..i], target) && rowWeight == Weight(row)
    {
      assert blocks[..i + 1] == blocks[..i] + [blocks[i]];
      rows, row, rowWeight := PlaceBlock(rows, row, rowWeight, blocks[i], blocks[..i], target);
      i := i + 1;
    }
    assert blocks[..|blocks|] == blocks;
  }

  /** The loop body of `rows`: add the block to the open row, and close the row once it reaches the target. */
  method PlaceBlock(rows: seq<Row>, row: seq<Block>, rowWeight: real, block: Block, ghost done: seq<Block>,
                    target: real)
    returns (rows': seq<Row>, row': seq<Block>, rowWeight': real)
    requires target > 0.0 && Building(rows, row, done, target) && rowWeight == Weight(row)
    ensures Building(rows', row', done + [block], target) && rowWeight' == Weight(row')
    ensures rowWeight + block.weight >= target ==> rows' == rows + [Row(row + [block], rowWeight + block.weight)] && row' == []
    ensures rowWeight + block.weight < target ==> rows' == rows && row' == row + [block]
  {
    TakeBlock(rows, row, block, done, target);
    rows', row', rowWeight' := rows, row + [block], rowWeight + block.weight;
    if rowWeight' >= target {
      rows' := rows + [Row(row', rowWeight')];
      row' := [];
      rowWeight' := 0.0;
    }
  }

  // ---------------------------------------------------------------------
  // Cells and selection
  // ---------------------------------------------------------------------

  /** The colour intensity of a cell. */
  function Intensity(change: real): (r: real)
    ensures 0.0 <= r <= 1.0
    ensures Abs(change) >= FULL_INTENSITY_CHANGE ==> r == 1.0
    ensures Abs(change) < FULL_INTENSITY_CHANGE ==> r * FULL_INTENSITY_CHANGE == Abs(change)
  {
    Min(Abs(change) / FULL_INTENSITY_CHANGE, 1.0)
  }

  /** Green cells: a change of zero counts as positive. */
  predicate IsPositive(change: real)
  {
    change >= 0.0
  }

  /**
   * A cell's colouring: green with a '+' before the change when positive,
   * red otherwise, over a background whose alpha is `0.2 + intensity * 0.55`.
   */
  datatype Tone = Tone(green: bool, alpha: real)

  function CellTone(change: real): (t: Tone)
    ensures t.green <==> IsPositive(change)
    ensures 0.2 <= t.alpha <= 0.75
    ensures t.alpha == 0.2 + Intensity(change) * 0.55
    ensures Abs(change) >= FULL_INTENSITY_CHANGE ==> t.alpha == 0.75
    ensures change == 0.0 ==> t.green && t.alpha == 0.2
  {
    Tone(IsPositive(change), 0.2 + Intensity(change) * 0.55)
  }

  /** A rise and a fall of the same size are equally strong, in opposite colours. */
  lemma ToneSymmetric(change: real)
    requires change != 0.0
    ensures CellTone(-change).alpha == CellTone(change).alpha
    ensures CellTone(-change).green != CellTone(change).green
  {
    assert Abs(-change) == Abs(change);
  }

  /** A larger change never gives a fainter cell. */
  lemma ToneMonotone(c1: real, c2: real)
    requires Abs(c1) <= Abs(c2)
    ensures CellTone(c1).alpha <= CellTone(c2).alpha
  {
  }

  /** What the grid area shows. */
  datatype Grid = NoData | Layout(rows: seq<Row>)

  /** The timeframe choice and the selected cell. */
  class HeatmapView {
    var tf: Option<string>
    var selected: Option<Item>

    /** The first timeframe is selected; none when the list is empty. */
    constructor (timeframes: seq<string>)
      ensures tf == (if timeframes == [] then None else Some(timeframes[0])) && selected.None?
    {
      tf := if timeframes == [] then None else Some(timeframes[0]);
      selected := None;
    }

    /** Whether the cell for `item` is highlighted: the same id as the selection. */
    function IsSelected(item: Item): (b: bool)
      reads this
      ensures b <==> selected.Some? && selected.value.id == item.id
    {
      match selected
      case Some(s) => s.id == item.id
      case None => false
    }

    /** A cell click: deselect the selected cell, otherwise select this one. */
    method CellClick(item: Item)
      modifies this
      ensures tf == old(tf)
      ensures old(IsSelected(item)) ==> selected.None?
      ensures !old(IsSelected(item)) ==> selected == Some(item)
    {
      if IsSelected(item) {
        selected := None;
      } else {
        selected := Some(item);
      }
    }

    /** Choosing a timeframe: a different one clears the selection. */
    method SetTimeframe(t: string)
      modifies this
      ensures tf == Some(t)
      ensures Some(t) != old(tf) ==> selected.None?
      ensures Some(t) == old(tf) ==> selected == old(selected)
    {
      if Some(t) != tf {
        tf := Some(t);
        selected := None;
      }
    }

    /** A pointerdown outside the heatmap clears the selection. */
    method PointerDown(insideContainer: bool)
      modifies this
      ensures tf == old(tf)
      ensures selected == (if insideContainer then old(selected) else None)
    {
      if selected.Some? && !insideContainer {
        selected := None;
      }
    }

    /** The grid for the current timeframe. */
    method Render(data: map<string, seq<Item>>) returns (g: Grid)
      ensures ItemsOf(data, tf) == [] <==> g == NoData
      ensures g.Layout? ==> Flatten(g.rows) == Blocks(ItemsOf(data, tf))
      ensures g.Layout? ==> GreedyRows(g.rows, TargetRowWeight(|Blocks(ItemsOf(data, tf))|))
    {
      var items := ItemsOf(data, tf);
      if items == [] {
        return NoData;
      }
      var rows := Rows(Blocks(items));
      return Layout(rows);
    }
  }

  /** Two clicks on one cell, starting from no selection, leave nothing selected. */
  method ClickTwice(view: HeatmapView, item: Item)
    requires view.selected.None?
    modifies view
    ensures view.selected.None?
  {
    view.CellClick(item);
    view.CellClick(item);
  }
}
