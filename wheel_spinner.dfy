/**
 * The prize wheel: n equal segments drawn clockwise from the top, a pointer
 * fixed at the top, and a spin that adds five full turns plus the angle that
 * brings a randomly chosen segment's midline under the pointer. The 4 s
 * landing timer is the method `LandingTimerFired`; the random choice is the
 * parameter `winIndex`.
 *
 * Angles are degrees, clockwise, with -90 pointing up (SVG's convention).
 */
module WheelSpinner {
  import opened Common

  const PRIZE_COLORS: seq<string> :=
    ["#DC2626", "#F4C430", "#004499", "#0098EA", "#9A45E5", "#00B843", "#2C2E30", "#0098EA"]

  /** The angle the pointer marks. */
  const POINTER_DEG: real := -90.0

  /** A prize; its `label` is the text on its segment. */
  datatype Prize = Prize(text: string)

  /** `segAngle`: 360 / n, or 360 with no prizes. */
  function SegAngle(n: nat): (seg: real)
    ensures seg > 0.0 && seg <= 360.0
    ensures n > 0 ==> seg * (n as real) == 360.0
    ensures n == 0 ==> seg == 360.0
  {
    if n > 0 then 360.0 / (n as real) else 360.0
  }

  /** Where segment i starts and ends. */
  function SegStart(i: nat, seg: real): real { (i as real) * seg - 90.0 }
  function SegEnd(i: nat, seg: real): real { ((i + 1) as real) * seg - 90.0 }

  /** The midline of segment i, where its label sits. */
  function MidDeg(i: nat, seg: real): (m: real)
    ensures m == (SegStart(i, seg) + SegEnd(i, seg)) / 2.0
  {
    (SegStart(i, seg) + SegEnd(i, seg)) / 2.0
  }

  /** The segments tile the circle: each ends where the next starts and the last closes the turn. */
  lemma SegmentsTile(n: nat, i: nat)
    requires 0 < n && i < n
    ensures SegEnd(i, SegAngle(n)) == SegStart(i + 1, SegAngle(n))
    ensures SegEnd(n - 1, SegAngle(n)) == SegStart(0, SegAngle(n)) + 360.0
    ensures SegStart(i, SegAngle(n)) < SegEnd(i, SegAngle(n))
  {
  }

  /** The SVG large-arc flag: set for a segment wider than a half turn, which happens only with a single prize. */
  function LargeArc(n: nat): (flag: int)
    requires n > 0
    ensures flag == (if SegAngle(n) > 180.0 then 1 else 0)
    ensures flag == 1 <==> n == 1
  {
    SegAngleAtMostHalf(n);
    if SegAngle(n) > 180.0 then 1 else 0
  }

  lemma SegAngleAtMostHalf(n: nat)
    ensures n >= 2 ==> SegAngle(n) <= 180.0
  {
    if n >= 2 {
      assert SegAngle(n) * (n as real) == 360.0;
      assert SegAngle(n) * (n as real) >= SegAngle(n) * 2.0;
    }
  }

  /** Segment i's fill: the colour list repeats every eight segments. */
  function SegmentColor(i: nat): (c: string)
    ensures c == PRIZE_COLORS[i % 8]
    ensures i >= 8 ==> c == SegmentColor(i - 8)
  {
    PRIZE_COLORS[i % |PRIZE_COLORS|]
  }

  /** The rotation a spin adds to land on segment k: five turns, plus the turn that brings k's midline to the top. */
  function TargetAngle(k: nat, seg: real): real
  {
    360.0 * 5.0 + (360.0 - (k as real) * seg - seg / 2.0)
  }

  /** For a segment that exists, the added angle lies in [1800 + seg/2, 2160 - seg/2]. */
  lemma TargetAngleBounds(n: nat, k: nat)
    requires k < n
    ensures 1800.0 + SegAngle(n) / 2.0 <= TargetAngle(k, SegAngle(n)) <= 2160.0 - SegAngle(n) / 2.0
  {
    var seg := SegAngle(n);
    assert (k as real) * seg <= ((n - 1) as real) * seg;
    assert ((n - 1) as real) * seg == 360.0 - seg;
  }

  /** Two angles name the same direction: they differ by whole turns. */
  predicate SameDirection(a: real, b: real)
  {
    var q := (a - b) / 360.0;
    q.Floor as real == q
  }

  /** From a whole number of turns, the spin leaves segment k's midline exactly under the pointer. */
  lemma LandsUnderPointer(n: nat, k: nat)
    requires k < n
    ensures MidDeg(k, SegAngle(n)) + TargetAngle(k, SegAngle(n)) == POINTER_DEG + 6.0 * 360.0
    ensures SameDirection(MidDeg(k, SegAngle(n)) + TargetAngle(k, SegAngle(n)), POINTER_DEG)
  {
    var q := (MidDeg(k, SegAngle(n)) + TargetAngle(k, SegAngle(n)) - POINTER_DEG) / 360.0;
    assert q == 6.0;
  }

  /**
   * Rotation accumulates, so from a starting rotation `r0` the winner sits
   * under the pointer exactly when `r0` is a whole number of turns.
   */
  lemma {:induction false} WinnerUnderPointerIff(n: nat, k: nat, r0: real)
    requires k < n
    ensures SameDirection(MidDeg(k, SegAngle(n)) + r0 + TargetAngle(k, SegAngle(n)), POINTER_DEG)
            <==> SameDirection(r0, 0.0)
  {
    LandsUnderPointer(n, k);
    var x := r0 / 360.0;
    var q := (MidDeg(k, SegAngle(n)) + r0 + TargetAngle(k, SegAngle(n)) - POINTER_DEG) / 360.0;
    assert q == x + 6.0;
    assert (x + 6.0).Floor == x.Floor + 6;
    assert (r0 - 0.0) / 360.0 == x;
  }

  /** A spin adds between five and six whole turns and never a whole number of them. */
  lemma SpinLeavesPartTurn(n: nat, k: nat)
    requires k < n
    ensures 1800.0 < TargetAngle(k, SegAngle(n)) < 2160.0
    ensures !SameDirection(TargetAngle(k, SegAngle(n)), 0.0)
  {
    TargetAngleBounds(n, k);
    var q := (TargetAngle(k, SegAngle(n)) - 0.0) / 360.0;
    assert 5.0 < q < 6.0;
    assert q.Floor == 5;
  }

  /**
   * After a first spin from a fresh wheel, the second winner's midline is
   * never under the pointer: each spin's angle assumes it starts from a whole
   * number of turns, and the first one left the wheel part-way round.
   */
  lemma SecondSpinMisses(n: nat, k1: nat, k2: nat)
    requires k1 < n && k2 < n
    ensures !SameDirection(MidDeg(k2, SegAngle(n)) + TargetAngle(k1, SegAngle(n)) + TargetAngle(k2, SegAngle(n)),
                           POINTER_DEG)
  {
    SpinLeavesPartTurn(n, k1);
    WinnerUnderPointerIff(n, k2, TargetAngle(k1, SegAngle(n)));
  }

  /** The wheel's state: the landing timer is pending exactly while it spins. */
  class WheelModel {
    const prizes: seq<Prize>
    var spinning: bool
    var rotation: real
    var winner: Option<Prize>
    /** The segment the pending landing timer will award. */
    var pending: Option<nat>
    /** Values passed to `onResult`, in order. */
    var results: seq<Prize>

    ghost predicate Valid()
      reads this
    {
      && (spinning <==> pending.Some?)
      && (pending.Some? ==> pending.value < |prizes|)
    }

    constructor (prizes: seq<Prize>)
      ensures Valid() && this.prizes == prizes
      ensures !spinning && rotation == 0.0 && winner.None? && results == []
    {
      this.prizes := prizes;
      spinning := false;
      rotation := 0.0;
      winner := None;
      pending := None;
      results := [];
    }

    /** `spin`: ignored while spinning or without prizes; `winIndex` is `floor(random * n)`. */
    method Spin(winIndex: nat)
      requires Valid() && (|prizes| > 0 ==> winIndex < |prizes|)
      modifies this
      ensures Valid() && results == old(results)
      ensures old(spinning) || |prizes| == 0 ==>
                spinning == old(spinning) && rotation == old(rotation) && winner == old(winner)
                && pending == old(pending)
      ensures !(old(spinning) || |prizes| == 0) ==>
                spinning && winner.None? && pending == Some(winIndex)
                && rotation == old(rotation) + TargetAngle(winIndex, SegAngle(|prizes|))
    {
      if spinning || |prizes| == 0 {
        return;
      }
      spinning := true;
      winner := None;
      var segAngle := 360.0 / (|prizes| as real);
      var targetAngle := 360.0 * 5.0 + (360.0 - (winIndex as real) * segAngle - segAngle / 2.0);
      rotation := rotation + targetAngle;
      pending := Some(winIndex);
    }

    /** The 4 s timer: stop, show the chosen prize and report it once. */
    method LandingTimerFired()
      requires Valid() && pending.Some?
      modifies this
      ensures Valid() && !spinning && pending.None? && rotation == old(rotation)
      ensures winner == Some(prizes[old(pending).value])
      ensures results == old(results) + [prizes[old(pending).value]]
    {
      var k := pending.value;
      spinning := false;
      winner := Some(prizes[k]);
      results := results + [prizes[k]];
      pending := None;
    }

    /** The 'You won' line shows only after a landing. */
    function ShowsWinner(): (shown: bool)
      reads this
      ensures shown <==> winner.Some? && !spinning
    {
      winner.Some? && !spinning
    }

    /** The button reads 'Spinning...' and is disabled while spinning. */
    function ButtonLabel(): (caption: string)
      reads this
      ensures caption == (if spinning then "Spinning..." else "Spin")
    {
      if spinning then "Spinning..." else "Spin"
    }
  }

  /**
   * Spinning a fresh wheel and letting it land reports the chosen prize once
   * and leaves that prize's segment under the pointer.
   */
  method FirstSpin(prizes: seq<Prize>, winIndex: nat) returns (w: WheelModel)
    requires winIndex < |prizes|
    ensures w.results == [prizes[winIndex]] && w.winner == Some(prizes[winIndex])
    ensures SameDirection(MidDeg(winIndex, SegAngle(|prizes|)) + w.rotation, POINTER_DEG)
  {
    w := new WheelModel(prizes);
    w.Spin(winIndex);
    w.LandingTimerFired();
    WinnerUnderPointerIff(|prizes|, winIndex, 0.0);
    assert SameDirection(0.0, 0.0) by {
      assert (0.0 - 0.0) / 360.0 == 0.0;
    }
    assert w.rotation == 0.0 + TargetAngle(winIndex, SegAngle(|prizes|));
  }

  /**
   * Two spins of a fresh wheel: both prizes are reported in order, and the
   * wheel comes to rest with the second prize's segment away from the pointer.
   */
  method TwoSpins(prizes: seq<Prize>, first: nat, second: nat) returns (w: WheelModel)
    requires first < |prizes| && second < |prizes|
    ensures w.results == [prizes[first], prizes[second]] && w.winner == Some(prizes[second])
    ensures !SameDirection(MidDeg(second, SegAngle(|prizes|)) + w.rotation, POINTER_DEG)
  {
    w := new WheelModel(prizes);
    w.Spin(first);
    w.LandingTimerFired();
    w.Spin(second);
    w.LandingTimerFired();
    SecondSpinMisses(|prizes|, first, second);
    assert w.rotation == 0.0 + TargetAngle(first, SegAngle(|prizes|)) + TargetAngle(second, SegAngle(|prizes|));
    assert MidDeg(second, SegAngle(|prizes|)) + w.rotation
        == MidDeg(second, SegAngle(|prizes|)) + TargetAngle(first, SegAngle(|prizes|)) + TargetAngle(second, SegAngle(|prizes|));
  }
}
