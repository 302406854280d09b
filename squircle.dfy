/**
 * The superellipse ("squircle") clip-path generator and the controller that
 * keeps an element's clip path in step with its measured size.
 *
 * Angles are measured in quarter-turns (1.0 stands for pi/2). The cosine/sine
 * power terms of a corner sample are not interpreted: a `Shape` maps an angle
 * to the unit offset (sign(cos t)|cos t|^(2/3), sign(sin t)|sin t|^(2/3)).
 */
module Squircle {
  import opened Common

  /** Samples per corner arc, minus one (the loop runs i = 0..STEPS). */
  const STEPS: nat := 16
  /** How far smoothing stretches the corner beyond the nominal radius. */
  const SMOOTH_GAIN: real := 0.528
  /** Length of a non-degenerate path: move, 4 edges, 4 corners of 17 samples, close. */
  const PATH_LENGTH: nat := 2 + 4 * (STEPS + 1) + 3 + 1

  /** One command of an SVG path. */
  datatype Cmd = MoveTo(x: real, y: real) | LineTo(x: real, y: real) | ClosePath

  /** The unit superellipse offset at an angle given in quarter-turns. */
  type Shape = real -> (real, real)

  /** The nominal radius clamped to half of each side. */
  function NominalRadius(w: real, h: real, radius: real): (r: real)
    ensures r <= radius && r <= w / 2.0 && r <= h / 2.0
    ensures r == radius || r == w / 2.0 || r == h / 2.0
  {
    Min(Min(radius, w / 2.0), h / 2.0)
  }

  /**
   * The effective corner size: the clamped radius stretched by the
   * smoothing factor, clamped again to half the shorter side.
   */
  function CornerSize(w: real, h: real, radius: real, smoothing: real): (a: real)
    requires w > 0.0 && h > 0.0
    ensures a <= Min(w, h) / 2.0
    ensures radius >= 0.0 && smoothing >= 0.0 ==> 0.0 <= NominalRadius(w, h, radius) <= a
    ensures a <= NominalRadius(w, h, radius) * (1.0 + smoothing * SMOOTH_GAIN)
    ensures a == Min(w, h) / 2.0
            || a == NominalRadius(w, h, radius) * (1.0 + smoothing * SMOOTH_GAIN)
  {
    var r := NominalRadius(w, h, radius);
    Min(r * (1.0 + smoothing * SMOOTH_GAIN), Min(w, h) / 2.0)
  }

  /**
   * With non-negative smoothing the first clamp cannot be seen: stretching the
   * unclamped radius and clamping once gives the same corner size.
   */
  lemma FirstClampHiddenForNonNegativeSmoothing(w: real, h: real, radius: real, smoothing: real)
    requires w > 0.0 && h > 0.0 && smoothing >= 0.0
    ensures CornerSize(w, h, radius, smoothing) == Min(radius * (1.0 + smoothing * SMOOTH_GAIN), Min(w, h) / 2.0)
  {
    var r := NominalRadius(w, h, radius);
    var f := 1.0 + smoothing * SMOOTH_GAIN;
    var m := Min(w, h) / 2.0;
    if r != radius {
      assert r == m && r < radius;
      assert r * f >= r by { assert r * f - r == r * (smoothing * SMOOTH_GAIN); }
      assert radius * f >= radius by { assert radius * f - radius == radius * (smoothing * SMOOTH_GAIN); }
      assert Min(r * f, m) == m && Min(radius * f, m) == m;
    }
  }

  /** With negative smoothing the first clamp matters: a 40 x 40 box, radius 100, smoothing -1. */
  lemma FirstClampShowsForNegativeSmoothing()
    ensures CornerSize(40.0, 40.0, 100.0, -1.0) == 9.44
    ensures Min(100.0 * (1.0 + -1.0 * SMOOTH_GAIN), Min(40.0, 40.0) / 2.0) == 20.0
  {
    assert NominalRadius(40.0, 40.0, 100.0) == 20.0;
  }

  /** The angle, in quarter-turns, of sample `i` of a corner starting at `from`. */
  function SampleAngle(from: real, i: nat): real
  {
    from + (i as real) / (STEPS as real)
  }

  /** Sample `i` of the corner centred at (cx, cy) whose arc starts at `from`. */
  function Sample(cx: real, cy: real, a: real, from: real, shape: Shape, i: nat): Cmd
  {
    var u := shape(SampleAngle(from, i));
    LineTo(cx + a * u.0, cy + a * u.1)
  }

  /** The first `k` samples of a corner. */
  function CornerPrefix(cx: real, cy: real, a: real, from: real, shape: Shape, k: nat): (s: seq<Cmd>)
    ensures |s| == k
  {
    seq(k, i requires 0 <= i < k => Sample(cx, cy, a, from, shape, i))
  }

  /** The whole corner run: STEPS + 1 samples. */
  function CornerRun(cx: real, cy: real, a: real, from: real, shape: Shape): (s: seq<Cmd>)
    ensures |s| == STEPS + 1
  {
    CornerPrefix(cx, cy, a, from, shape, STEPS + 1)
  }

  /**
   * The path the generator emits: empty for a degenerate rectangle, else the
   * top edge, top-right corner, right edge, bottom-right corner, bottom edge,
   * bottom-left corner, left edge, top-left corner, and the close command.
   */
  function SquirclePath(w: real, h: real, radius: real, smoothing: real, shape: Shape): seq<Cmd>
  {
    if w <= 0.0 || h <= 0.0 then []
    else
      var a := CornerSize(w, h, radius, smoothing);
      Outline(w, h, a, CornerRun(w - a, a, a, -1.0, shape), CornerRun(w - a, h - a, a, 0.0, shape),
              CornerRun(a, h - a, a, 1.0, shape), CornerRun(a, a, a, 2.0, shape))
  }

  /** The four corner runs joined by the four straight edges, from (a, 0) round to the close. */
  function Outline(w: real, h: real, a: real, c1: seq<Cmd>, c2: seq<Cmd>, c3: seq<Cmd>, c4: seq<Cmd>)
    : seq<Cmd>
  {
    [MoveTo(a, 0.0), LineTo(w - a, 0.0)] + c1 + [LineTo(w, h - a)] + c2
    + [LineTo(a, h)] + c3 + [LineTo(0.0, a)] + c4 + [ClosePath]
  }

  /** The `corner` helper: a loop appending STEPS + 1 samples. */
  method Corner(cx: real, cy: real, a: real, from: real, shape: Shape) returns (d: seq<Cmd>)
    ensures d == CornerRun(cx, cy, a, from, shape)
  {
    d := [];
    var i := 0;
    while i <= STEPS
      invariant 0 <= i <= STEPS + 1
      invariant d == CornerPrefix(cx, cy, a, from, shape, i)
    {
      d := d + [Sample(cx, cy, a, from, shape, i)];
      i := i + 1;
    }
  }

  /** `generateSquirclePath`. */
  method GenerateSquirclePath(w: real, h: real, radius: real, smoothing: real, shape: Shape)
    returns (path: seq<Cmd>)
    ensures path == SquirclePath(w, h, radius, smoothing, shape)
    ensures path == [] <==> (w <= 0.0 || h <= 0.0)
    ensures path != [] ==> |path| == PATH_LENGTH && path[|path| - 1] == ClosePath
  {
    if w <= 0.0 || h <= 0.0 {
      return [];
    }
    var a := CornerSize(w, h, radius, smoothing);
    var topRight := Corner(w - a, a, a, -1.0, shape);
    var bottomRight := Corner(w - a, h - a, a, 0.0, shape);
    var bottomLeft := Corner(a, h - a, a, 1.0, shape);
    var topLeft := Corner(a, a, a, 2.0, shape);
    path := Outline(w, h, a, topRight, bottomRight, bottomLeft, topLeft);
    assert SquirclePath(w, h, radius, smoothing, shape)
        == Outline(w, h, a, CornerRun(w - a, a, a, -1.0, shape), CornerRun(w - a, h - a, a, 0.0, shape),
                   CornerRun(a, h - a, a, 1.0, shape), CornerRun(a, a, a, 2.0, shape));
    OutlinePieces(w, h, a, topRight, bottomRight, bottomLeft, topLeft);
  }

  // ---------------------------------------------------------------------
  // Properties of the generated path
  // ---------------------------------------------------------------------

  /** A command's vertex lies in the rectangle [0,w] x [0,h] (ClosePath has none). */
  predicate InBox(c: Cmd, w: real, h: real)
  {
    match c
    case MoveTo(x, y) => 0.0 <= x <= w && 0.0 <= y <= h
    case LineTo(x, y) => 0.0 <= x <= w && 0.0 <= y <= h
    case ClosePath => true
  }

  predicate AllInBox(s: seq<Cmd>, w: real, h: real)
  {
    forall i :: 0 <= i < |s| ==> InBox(s[i], w, h)
  }

  /** Every sample offset has magnitude at most 1 in each coordinate. */
  ghost predicate UnitBounded(shape: Shape)
  {
    forall t :: -1.0 <= shape(t).0 <= 1.0 && -1.0 <= shape(t).1 <= 1.0
  }

  lemma ScaledOffset(a: real, u: real)
    requires a >= 0.0 && -1.0 <= u <= 1.0
    ensures -a <= a * u <= a
  {
    if u >= 0.0 {
      assert a * u <= a * 1.0;
    } else {
      assert a * u >= a * (-1.0);
    }
  }

  lemma OffsetCoordinate(c: real, a: real, u: real, hi: real)
    requires a >= 0.0 && -1.0 <= u <= 1.0 && a <= c <= hi - a
    ensures 0.0 <= c + a * u <= hi
  {
    ScaledOffset(a, u);
  }

  lemma SampleInBox(cx: real, cy: real, a: real, from: real, shape: Shape, i: nat, w: real, h: real)
    requires UnitBounded(shape) && a >= 0.0
    requires a <= cx <= w - a && a <= cy <= h - a
    ensures InBox(Sample(cx, cy, a, from, shape, i), w, h)
  {
    var t := SampleAngle(from, i);
    var x, y := shape(t).0, shape(t).1;
    assert -1.0 <= x <= 1.0 && -1.0 <= y <= 1.0;
    OffsetCoordinate(cx, a, x, w);
    OffsetCoordinate(cy, a, y, h);
    assert Sample(cx, cy, a, from, shape, i) == LineTo(cx + a * x, cy + a * y);
  }

  lemma CornerInBox(cx: real, cy: real, a: real, from: real, shape: Shape, w: real, h: real)
    requires UnitBounded(shape) && a >= 0.0
    requires a <= cx <= w - a && a <= cy <= h - a
    ensures AllInBox(CornerRun(cx, cy, a, from, shape), w, h)
  {
    var run := CornerRun(cx, cy, a, from, shape);
    forall i | 0 <= i < |run| ensures InBox(run[i], w, h) {
      assert run[i] == Sample(cx, cy, a, from, shape, i);
      SampleInBox(cx, cy, a, from, shape, i, w, h);
    }
  }

  lemma AllInBoxAppend(s: seq<Cmd>, t: seq<Cmd>, w: real, h: real)
    requires AllInBox(s, w, h) && AllInBox(t, w, h)
    ensures AllInBox(s + t, w, h)
  {
    forall i | 0 <= i < |s + t| ensures InBox((s + t)[i], w, h) {
      if i < |s| { assert (s + t)[i] == s[i]; } else { assert (s + t)[i] == t[i - |s|]; }
    }
  }

  /**
   * For a non-negative radius and smoothing, every vertex of the path lies in
   * the rectangle, because each corner offset is at most the corner size and
   * the corner size is at most half of the shorter side.
   */
  lemma {:induction false} PathInBox(w: real, h: real, radius: real, smoothing: real, shape: Shape)
    requires radius >= 0.0 && smoothing >= 0.0 && UnitBounded(shape)
    ensures AllInBox(SquirclePath(w, h, radius, smoothing, shape), w, h)
  {
    if w > 0.0 && h > 0.0 {
      var a := CornerSize(w, h, radius, smoothing);
      assert 0.0 <= a <= w / 2.0 && a <= h / 2.0;
      assert SquirclePath(w, h, radius, smoothing, shape)
          == Outline(w, h, a, CornerRun(w - a, a, a, -1.0, shape), CornerRun(w - a, h - a, a, 0.0, shape),
                     CornerRun(a, h - a, a, 1.0, shape), CornerRun(a, a, a, 2.0, shape));
      CornersOutlineInBox(w, h, a, shape);
    }
  }

  /** The outline through the four corner runs of size `a` stays inside the box. */
  lemma CornersOutlineInBox(w: real, h: real, a: real, shape: Shape)
    requires 0.0 <= a <= w / 2.0 && a <= h / 2.0 && UnitBounded(shape)
    ensures AllInBox(Outline(w, h, a, CornerRun(w - a, a, a, -1.0, shape), CornerRun(w - a, h - a, a, 0.0, shape),
                             CornerRun(a, h - a, a, 1.0, shape), CornerRun(a, a, a, 2.0, shape)), w, h)
  {
    CornerInBox(w - a, a, a, -1.0, shape, w, h);
    CornerInBox(w - a, h - a, a, 0.0, shape, w, h);
    CornerInBox(a, h - a, a, 1.0, shape, w, h);
    CornerInBox(a, a, a, 2.0, shape, w, h);
    OutlineInBox(w, h, a, CornerRun(w - a, a, a, -1.0, shape), CornerRun(w - a, h - a, a, 0.0, shape),
                 CornerRun(a, h - a, a, 1.0, shape), CornerRun(a, a, a, 2.0, shape));
  }

  /** Corners inside the box and a corner size of at most half of each side keep the whole outline inside. */
  lemma OutlineInBox(w: real, h: real, a: real, c1: seq<Cmd>, c2: seq<Cmd>, c3: seq<Cmd>, c4: seq<Cmd>)
    requires 0.0 <= a <= w / 2.0 && a <= h / 2.0
    requires AllInBox(c1, w, h) && AllInBox(c2, w, h) && AllInBox(c3, w, h) && AllInBox(c4, w, h)
    ensures AllInBox(Outline(w, h, a, c1, c2, c3, c4), w, h)
  {
    var p1 := [MoveTo(a, 0.0), LineTo(w - a, 0.0)];
    var p2 := p1 + c1;
    AllInBoxAppend(p1, c1, w, h);
    var p3 := p2 + [LineTo(w, h - a)];
    AllInBoxAppend(p2, [LineTo(w, h - a)], w, h);
    var p4 := p3 + c2;
    AllInBoxAppend(p3, c2, w, h);
    var p5 := p4 + [LineTo(a, h)];
    AllInBoxAppend(p4, [LineTo(a, h)], w, h);
    var p6 := p5 + c3;
    AllInBoxAppend(p5, c3, w, h);
    var p7 := p6 + [LineTo(0.0, a)];
    AllInBoxAppend(p6, [LineTo(0.0, a)], w, h);
    var p8 := p7 + c4;
    AllInBoxAppend(p7, c4, w, h);
    AllInBoxAppend(p8, [ClosePath], w, h);
  }

  /** For a non-negative radius the corner size never shrinks as smoothing grows. */
  lemma CornerSizeMonotone(w: real, h: real, radius: real, s1: real, s2: real)
    requires w > 0.0 && h > 0.0 && radius >= 0.0 && s1 <= s2
    ensures CornerSize(w, h, radius, s1) <= CornerSize(w, h, radius, s2)
  {
    var r := NominalRadius(w, h, radius);
    var t1 := r * (1.0 + s1 * SMOOTH_GAIN);
    var t2 := r * (1.0 + s2 * SMOOTH_GAIN);
    var d := (s2 - s1) * SMOOTH_GAIN;
    assert d >= 0.0;
    assert t2 == t1 + r * d;
    assert r * d >= 0.0;
    assert CornerSize(w, h, radius, s1) == Min(t1, Min(w, h) / 2.0);
    assert CornerSize(w, h, radius, s2) == Min(t2, Min(w, h) / 2.0);
  }

  /** The point a command moves or draws to. */
  function Vertex(c: Cmd): (real, real)
    requires !c.ClosePath?
  {
    (c.x, c.y)
  }

  /** The shape hits the axis points at whole quarter-turns, as cos and sin do. */
  predicate AxisExact(shape: Shape)
  {
    shape(-1.0) == (0.0, -1.0) && shape(0.0) == (1.0, 0.0) && shape(1.0) == (0.0, 1.0)
    && shape(2.0) == (-1.0, 0.0) && shape(3.0) == (0.0, -1.0)
  }

  /**
   * The layout of a non-degenerate path: each corner's first sample meets the
   * straight edge before it, its last sample starts the edge after it, the four
   * straight edges lie on the four sides of the rectangle, and the last corner
   * ends where the path began, so the loop is closed.
   */
  lemma {:induction false} PathIsClosedLoop(w: real, h: real, radius: real, smoothing: real, shape: Shape)
    requires w > 0.0 && h > 0.0 && AxisExact(shape)
    ensures var p := SquirclePath(w, h, radius, smoothing, shape);
      var a := CornerSize(w, h, radius, smoothing);
      && |p| == PATH_LENGTH
      && p[0] == MoveTo(a, 0.0) && p[1] == LineTo(w - a, 0.0)
      && Vertex(p[2]) == (w - a, 0.0) && Vertex(p[18]) == (w, a)
      && p[19] == LineTo(w, h - a)
      && Vertex(p[20]) == (w, h - a) && Vertex(p[36]) == (w - a, h)
      && p[37] == LineTo(a, h)
      && Vertex(p[38]) == (a, h) && Vertex(p[54]) == (0.0, h - a)
      && p[55] == LineTo(0.0, a)
      && Vertex(p[56]) == (0.0, a) && Vertex(p[72]) == (a, 0.0)
      && p[73] == ClosePath
  {
    var a := CornerSize(w, h, radius, smoothing);
    assert SquirclePath(w, h, radius, smoothing, shape)
        == Outline(w, h, a, CornerRun(w - a, a, a, -1.0, shape), CornerRun(w - a, h - a, a, 0.0, shape),
                   CornerRun(a, h - a, a, 1.0, shape), CornerRun(a, a, a, 2.0, shape));
    OutlineIsClosedLoop(w, h, a, shape);
  }

  /** The layout facts for any corner size. */
  lemma OutlineIsClosedLoop(w: real, h: real, a: real, shape: Shape)
    requires AxisExact(shape)
    ensures var p := Outline(w, h, a, CornerRun(w - a, a, a, -1.0, shape), CornerRun(w - a, h - a, a, 0.0, shape),
                             CornerRun(a, h - a, a, 1.0, shape), CornerRun(a, a, a, 2.0, shape));
      && |p| == PATH_LENGTH
      && p[0] == MoveTo(a, 0.0) && p[1] == LineTo(w - a, 0.0)
      && Vertex(p[2]) == (w - a, 0.0) && Vertex(p[18]) == (w, a)
      && p[19] == LineTo(w, h - a)
      && Vertex(p[20]) == (w, h - a) && Vertex(p[36]) == (w - a, h)
      && p[37] == LineTo(a, h)
      && Vertex(p[38]) == (a, h) && Vertex(p[54]) == (0.0, h - a)
      && p[55] == LineTo(0.0, a)
      && Vertex(p[56]) == (0.0, a) && Vertex(p[72]) == (a, 0.0)
      && p[73] == ClosePath
  {
    var c1 := CornerRun(w - a, a, a, -1.0, shape);
    var c2 := CornerRun(w - a, h - a, a, 0.0, shape);
    var c3 := CornerRun(a, h - a, a, 1.0, shape);
    var c4 := CornerRun(a, a, a, 2.0, shape);
    assert a * 0.0 == 0.0 && a * 1.0 == a && a * (-1.0) == -a;
    CornerEnds(w - a, a, a, -1.0, shape, 0.0, -1.0, 1.0, 0.0);
    CornerEnds(w - a, h - a, a, 0.0, shape, 1.0, 0.0, 0.0, 1.0);
    CornerEnds(a, h - a, a, 1.0, shape, 0.0, 1.0, -1.0, 0.0);
    CornerEnds(a, a, a, 2.0, shape, -1.0, 0.0, 0.0, -1.0);
    OutlineVertices(w, h, a, c1, c2, c3, c4);
  }

  /** The outline's layout follows from where each corner run starts and ends. */
  lemma OutlineVertices(w: real, h: real, a: real, c1: seq<Cmd>, c2: seq<Cmd>, c3: seq<Cmd>, c4: seq<Cmd>)
    requires |c1| == |c2| == |c3| == |c4| == STEPS + 1
    requires c1[0] == LineTo(w - a, 0.0) && c1[STEPS] == LineTo(w, a)
    requires c2[0] == LineTo(w, h - a) && c2[STEPS] == LineTo(w - a, h)
    requires c3[0] == LineTo(a, h) && c3[STEPS] == LineTo(0.0, h - a)
    requires c4[0] == LineTo(0.0, a) && c4[STEPS] == LineTo(a, 0.0)
    ensures var p := Outline(w, h, a, c1, c2, c3, c4);
      && |p| == PATH_LENGTH
      && p[0] == MoveTo(a, 0.0) && p[1] == LineTo(w - a, 0.0)
      && Vertex(p[2]) == (w - a, 0.0) && Vertex(p[18]) == (w, a)
      && p[19] == LineTo(w, h - a)
      && Vertex(p[20]) == (w, h - a) && Vertex(p[36]) == (w - a, h)
      && p[37] == LineTo(a, h)
      && Vertex(p[38]) == (a, h) && Vertex(p[54]) == (0.0, h - a)
      && p[55] == LineTo(0.0, a)
      && Vertex(p[56]) == (0.0, a) && Vertex(p[72]) == (a, 0.0)
      && p[73] == ClosePath
  {
    OutlinePieces(w, h, a, c1, c2, c3, c4);
  }

  /** A corner run starts at its arc's first angle and ends a quarter-turn later. */
  lemma CornerEnds(cx: real, cy: real, a: real, from: real, shape: Shape, x0: real, y0: real, x1: real, y1: real)
    requires shape(from) == (x0, y0) && shape(from + 1.0) == (x1, y1)
    ensures CornerRun(cx, cy, a, from, shape)[0] == LineTo(cx + a * x0, cy + a * y0)
    ensures CornerRun(cx, cy, a, from, shape)[STEPS] == LineTo(cx + a * x1, cy + a * y1)
  {
    var run := CornerRun(cx, cy, a, from, shape);
    assert shape(SampleAngle(from, 0)) == (x0, y0);
    assert shape(SampleAngle(from, STEPS)) == (x1, y1);
    assert run[0] == Sample(cx, cy, a, from, shape, 0) == LineTo(cx + a * x0, cy + a * y0);
    assert run[STEPS] == Sample(cx, cy, a, from, shape, STEPS) == LineTo(cx + a * x1, cy + a * y1);
  }

  /** Where the pieces of the outline sit once they are concatenated. */
  lemma OutlinePieces(w: real, h: real, a: real, c1: seq<Cmd>, c2: seq<Cmd>, c3: seq<Cmd>, c4: seq<Cmd>)
    requires |c1| == |c2| == |c3| == |c4| == STEPS + 1
    ensures var p := Outline(w, h, a, c1, c2, c3, c4);
      && |p| == PATH_LENGTH && p[0] == MoveTo(a, 0.0) && p[1] == LineTo(w - a, 0.0)
      && p[2] == c1[0] && p[18] == c1[STEPS] && p[19] == LineTo(w, h - a)
      && p[20] == c2[0] && p[36] == c2[STEPS] && p[37] == LineTo(a, h)
      && p[38] == c3[0] && p[54] == c3[STEPS] && p[55] == LineTo(0.0, a)
      && p[56] == c4[0] && p[72] == c4[STEPS] && p[73] == ClosePath
  {
  }

  /** The path as described in 2-D: corner k of a square is corner k-1 turned a quarter. */
  function RotateQuarter(c: Cmd, side: real): Cmd
  {
    match c
    case MoveTo(x, y) => MoveTo(side - y, x)
    case LineTo(x, y) => LineTo(side - y, x)
    case ClosePath => ClosePath
  }

  /** The shape turns with the angle: a quarter-turn later is the offset rotated by 90 degrees. */
  ghost predicate QuarterTurnSymmetric(shape: Shape)
  {
    forall t :: shape(t + 1.0) == (-shape(t).1, shape(t).0)
  }

  /**
   * On a square, with a rotation-symmetric shape, each corner run is the
   * previous one rotated by 90 degrees about the centre: the four corners have
   * the same shape.
   */
  lemma SquareCornersAreRotations(side: real, radius: real, smoothing: real, shape: Shape)
    requires side > 0.0 && QuarterTurnSymmetric(shape)
    ensures var a := CornerSize(side, side, radius, smoothing);
      && CornerRun(side - a, side - a, a, 0.0, shape)
         == seq(STEPS + 1, i requires 0 <= i <= STEPS => RotateQuarter(CornerRun(side - a, a, a, -1.0, shape)[i], side))
      && CornerRun(a, side - a, a, 1.0, shape)
         == seq(STEPS + 1, i requires 0 <= i <= STEPS => RotateQuarter(CornerRun(side - a, side - a, a, 0.0, shape)[i], side))
      && CornerRun(a, a, a, 2.0, shape)
         == seq(STEPS + 1, i requires 0 <= i <= STEPS => RotateQuarter(CornerRun(a, side - a, a, 1.0, shape)[i], side))
  {
    var a := CornerSize(side, side, radius, smoothing);
    forall from: real, cx: real, cy: real, i: nat | i <= STEPS
      ensures Sample(side - cy, cx, a, from + 1.0, shape, i)
           == RotateQuarter(Sample(cx, cy, a, from, shape, i), side)
    {
      var t := SampleAngle(from, i);
      assert SampleAngle(from + 1.0, i) == t + 1.0;
      var x, y := shape(t).0, shape(t).1;
      assert shape(t + 1.0) == (-y, x);
      assert a * (-y) == -(a * y);
      assert Sample(side - cy, cx, a, from + 1.0, shape, i) == LineTo(side - cy + a * (-y), cx + a * x);
      assert Sample(cx, cy, a, from, shape, i) == LineTo(cx + a * x, cy + a * y);
    }
  }

  // ---------------------------------------------------------------------
  // The resize-observing controller (`useSquircle`)
  // ---------------------------------------------------------------------

  /** A ResizeObserver watching one element; `disconnect` stops its callbacks. */
  class ResizeObserverModel {
    const target: nat
    var connected: bool

    constructor (target: nat)
      ensures this.target == target && connected
    {
      this.target := target;
      connected := true;
    }

    method Disconnect()
      modifies this
      ensures !connected
    {
      connected := false;
    }
  }

  /** The style the hook returns: `{}` or `{ clipPath, borderRadius: 0 }`. */
  datatype Style = NoStyle | ClipStyle(clipPath: seq<Cmd>, borderRadius: int)

  /**
   * One `useSquircle` instance. `el` is the element the callback ref holds
   * (elements are identified by number), `observer` the observer slot, and
   * `clipPath` the published path, with [] standing for the empty string.
   */
  class SquircleController {
    var el: Option<nat>
    var observer: ResizeObserverModel?
    var clipPath: seq<Cmd>
    var radiusRef: real
    var smoothRef: real
    const shape: Shape
    /** Every observer this instance has created. */
    ghost var created: set<ResizeObserverModel>

    /**
     * No leak: only the observer in the slot may still be connected, and a
     * connected observer watches the current element.
     */
    ghost predicate Valid()
      reads this, created
    {
      && (observer != null ==> observer in created)
      && (forall o :: o in created && o.connected ==> o == observer)
      && (observer != null && observer.connected ==> el == Some(observer.target))
    }

    /** The number of observers still connected. */
    ghost function Connected(): set<ResizeObserverModel>
      reads this, created
    {
      set o | o in created && o.connected
    }

    constructor (radius: real, smoothing: real, shape: Shape)
      ensures Valid() && Connected() == {}
      ensures el == None && observer == null && clipPath == []
      ensures radiusRef == radius && smoothRef == smoothing && this.shape == shape
    {
      el := None;
      observer := null;
      clipPath := [];
      radiusRef := radius;
      smoothRef := smoothing;
      this.shape := shape;
      created := {};
    }

    /** The hook re-rendered with new parameters: the refs take the latest values. */
    method Render(radius: real, smoothing: real)
      requires Valid()
      modifies this
      ensures Valid()
      ensures radiusRef == radius && smoothRef == smoothing
      ensures el == old(el) && observer == old(observer) && clipPath == old(clipPath)
      ensures created == old(created)
    {
      radiusRef := radius;
      smoothRef := smoothing;
    }

    /** `update`: re-measure (the element's size is `w` x `h`) and republish. */
    method Update(w: real, h: real)
      requires Valid()
      modifies this
      ensures Valid()
      ensures clipPath == (if el.None? then [] else SquirclePath(w, h, radiusRef, smoothRef, shape))
      ensures el == old(el) && observer == old(observer) && created == old(created)
      ensures radiusRef == old(radiusRef) && smoothRef == old(smoothRef)
    {
      if el.None? {
        clipPath := [];
        return;
      }
      clipPath := GenerateSquirclePath(w, h, radiusRef, smoothRef, shape);
    }

    /**
     * `setRef`: disconnect and clear the old observer, store the element, and
     * for a real element measure it (size `w` x `h`) and start a fresh observer.
     */
    method SetRef(e: Option<nat>, w: real, h: real)
      requires Valid()
      modifies this, created
      ensures Valid()
      ensures old(observer) != null ==> !old(observer).connected
      ensures el == e
      ensures e.None? ==> observer == null && clipPath == old(clipPath) && Connected() == {}
      ensures e.Some? ==> observer != null && fresh(observer) && observer.connected
                          && observer.target == e.value && Connected() == {observer}
                          && clipPath == SquirclePath(w, h, radiusRef, smoothRef, shape)
      ensures radiusRef == old(radiusRef) && smoothRef == old(smoothRef)
    {
      if observer != null {
        observer.Disconnect();
        observer := null;
      }
      el := e;
      if e.Some? {
        Update(w, h);
        var ro := new ResizeObserverModel(e.value);
        observer := ro;
        created := created + {ro};
      }
    }

    /**
     * A resize notification from observer `o` (the element now measures
     * `w` x `h`): a disconnected observer delivers nothing.
     */
    method ObserverFired(o: ResizeObserverModel, w: real, h: real)
      requires Valid()
      modifies this
      ensures Valid()
      ensures !o.connected ==> clipPath == old(clipPath)
      ensures o in created && o.connected ==>
                o == observer && el.Some? && clipPath == SquirclePath(w, h, radiusRef, smoothRef, shape)
      ensures el == old(el) && observer == old(observer) && created == old(created)
    {
      if o.connected {
        Update(w, h);
      }
    }

    /** The unmount clean-up: the observer in the slot, if any, is disconnected. */
    method Unmount()
      requires Valid()
      modifies this, created
      ensures Valid() && Connected() == {}
      ensures el == old(el) && observer == old(observer) && clipPath == old(clipPath)
      ensures radiusRef == old(radiusRef) && smoothRef == old(smoothRef)
    {
      if observer != null {
        observer.Disconnect();
      }
    }

    /** The style object handed to the consumer. */
    function CurrentStyle(): (s: Style)
      reads this
      ensures s == NoStyle <==> clipPath == []
      ensures s.ClipStyle? ==> s.clipPath == clipPath && s.borderRadius == 0
    {
      if clipPath == [] then NoStyle else ClipStyle(clipPath, 0)
    }
  }
}
