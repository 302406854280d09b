/**
 * The slide-to-confirm control: a pointer drags a handle along a track; a
 * release at or beyond the threshold confirms once, then a 600 ms timer resets
 * the control.
 */
module ConfirmSlider {
  import opened Common

  const PADDING: real := 4.0
  const FALLBACK_WIDTH: real := 300.0
  const DEFAULT_THRESHOLD: real := 80.0

  /** Handle width: 56 px on narrow viewports, 72 px otherwise. */
  function HandleWidth(mobile: bool): (w: real)
    ensures w == (if mobile then 56.0 else 72.0)
  {
    if mobile then 56.0 else 72.0
  }

  /** A measured track: its bounding rectangle (the layout width is positive). */
  predicate GoodTrack(track: Option<Rect>)
  {
    track.Some? ==> track.value.width > 0.0
  }

  lemma FractionAtMostOne(a: real, b: real)
    requires 0.0 <= a <= b && b > 0.0
    ensures 0.0 <= a / b <= 1.0
  {
    assert a / b * b == a;
  }

  /**
   * `computePercent`: the pointer's position along the track in percent,
   * with the pointer clamped to the track; 0 when there is no track.
   */
  function ComputePercent(track: Option<Rect>, clientX: real): (p: real)
    requires GoodTrack(track)
    ensures 0.0 <= p <= 100.0
    ensures track.None? ==> p == 0.0
    ensures track.Some? && clientX <= track.value.left ==> p == 0.0
    ensures track.Some? && clientX >= track.value.Right() ==> p == 100.0
    ensures track.Some? && track.value.left <= clientX <= track.value.Right() ==>
              p * track.value.width == (clientX - track.value.left) * 100.0
  {
    match track
    case None => 0.0
    case Some(rect) =>
      PercentOfTrack(rect.left, rect.width, clientX);
      var x := Max(rect.left, Min(clientX, rect.left + rect.width));
      Max(0.0, Min(100.0, ((x - rect.left) / rect.width) * 100.0))
  }

  /** The pointer clamped to a track of positive width, as a percent of that width. */
  lemma PercentOfTrack(left: real, width: real, clientX: real)
    requires width > 0.0
    ensures var x := Max(left, Min(clientX, left + width));
      var p := Max(0.0, Min(100.0, ((x - left) / width) * 100.0));
      && 0.0 <= p <= 100.0
      && (clientX <= left ==> p == 0.0)
      && (clientX >= left + width ==> p == 100.0)
      && (left <= clientX <= left + width ==> p * width == (clientX - left) * 100.0)
  {
    var x := Max(left, Min(clientX, left + width));
    var f := (x - left) / width;
    FractionAtMostOne(x - left, width);
    assert f * width == x - left;
    assert (f * 100.0) * width == (f * width) * 100.0;
    if clientX >= left + width {
      assert x - left == width;
    }
  }

  /** A pointer further right never gives a smaller percent. */
  lemma ComputePercentMonotone(track: Option<Rect>, x1: real, x2: real)
    requires GoodTrack(track) && x1 <= x2
    ensures ComputePercent(track, x1) <= ComputePercent(track, x2)
  {
    if track.Some? {
      var rect := track.value;
      var c1 := Max(rect.left, Min(x1, rect.Right()));
      var c2 := Max(rect.left, Min(x2, rect.Right()));
      assert c1 <= c2;
      assert (c1 - rect.left) / rect.width <= (c2 - rect.left) / rect.width by {
        assert (c2 - rect.left) / rect.width - (c1 - rect.left) / rect.width == (c2 - c1) / rect.width;
      }
    }
  }

  /**
   * `handleLeft`: the handle's left edge at `percent` of the track's client
   * width (300 px before the track is mounted), kept `PADDING` from both ends.
   */
  function HandleLeft(percent: real, clientWidth: Option<real>, mobile: bool): (left: real)
    ensures var w := if clientWidth.Some? then clientWidth.value else FALLBACK_WIDTH;
      && left >= PADDING
      && left <= Max(PADDING, w - HandleWidth(mobile) - PADDING)
      && (PADDING <= percent / 100.0 * w <= w - HandleWidth(mobile) - PADDING ==> left == percent / 100.0 * w)
      && (percent / 100.0 * w <= PADDING ==> left == PADDING)
      && (percent / 100.0 * w >= w - HandleWidth(mobile) - PADDING ==>
            left == Max(PADDING, w - HandleWidth(mobile) - PADDING))
  {
    var w := if clientWidth.Some? then clientWidth.value else FALLBACK_WIDTH;
    var pos := (percent / 100.0) * w;
    Clamp(pos, PADDING, w - HandleWidth(mobile) - PADDING)
  }

  datatype Label = Release | Prompt(text: string)

  /** The track label: 'Release' once the threshold is reached. */
  function DisplayLabel(percent: real, threshold: real, prompt: string): (l: Label)
    ensures l == Release <==> percent >= threshold
    ensures l != Release ==> l == Prompt(prompt)
  {
    if percent >= threshold then Release else Prompt(prompt)
  }

  class Slider {
    var percent: real
    var holding: bool
    var sliding: bool
    var confirmed: bool
    var activePointer: Option<int>
    /** Calls of `onConfirm` so far. */
    var confirmCalls: nat
    /** The post-confirm reset timer is scheduled and has not fired. */
    var timerPending: bool
    const threshold: real

    /**
     * The state the handlers keep: percent inside [0, 100]; a drag in progress
     * exactly when a pointer is tracked; while confirmed, nothing is being
     * dragged, the handle sits at 100, and the reset timer is pending.
     */
    ghost predicate Valid()
      reads this
    {
      && 0.0 <= percent <= 100.0
      && (sliding <==> activePointer.Some?)
      && (confirmed <==> timerPending)
      && (confirmed ==> !sliding && percent == 100.0 && holding)
      && (sliding ==> holding)
    }

    constructor (threshold: real)
      ensures Valid() && this.threshold == threshold
      ensures percent == 0.0 && !holding && !sliding && !confirmed && confirmCalls == 0
    {
      this.threshold := threshold;
      percent := 0.0;
      holding := false;
      sliding := false;
      confirmed := false;
      activePointer := None;
      confirmCalls := 0;
      timerPending := false;
    }

    /** `handlePointerDown`: ignored while disabled, confirmed or mid-drag. */
    method PointerDown(pointerId: int, clientX: real, disabled: bool, track: Option<Rect>)
      requires Valid() && GoodTrack(track)
      modifies this
      ensures Valid() && confirmCalls == old(confirmCalls) && confirmed == old(confirmed)
      ensures timerPending == old(timerPending)
      ensures old(disabled || confirmed || sliding) ==>
                percent == old(percent) && sliding == old(sliding) && holding == old(holding)
                && activePointer == old(activePointer)
      ensures !old(disabled || confirmed || sliding) ==>
                sliding && holding && activePointer == Some(pointerId)
                && percent == ComputePercent(track, clientX)
    {
      if disabled || confirmed || sliding {
        return;
      }
      sliding := true;
      activePointer := Some(pointerId);
      holding := true;
      percent := ComputePercent(track, clientX);
    }

    /** `handlePointerMove`: only the tracked pointer moves the handle. */
    method PointerMove(pointerId: int, clientX: real, track: Option<Rect>)
      requires Valid() && GoodTrack(track)
      modifies this
      ensures Valid() && sliding == old(sliding) && activePointer == old(activePointer)
      ensures holding == old(holding) && confirmed == old(confirmed) && confirmCalls == old(confirmCalls)
      ensures timerPending == old(timerPending)
      ensures sliding && activePointer == Some(pointerId) ==> percent == ComputePercent(track, clientX)
      ensures !(sliding && activePointer == Some(pointerId)) ==> percent == old(percent)
    {
      if !sliding || activePointer != Some(pointerId) {
        return;
      }
      percent := ComputePercent(track, clientX);
    }

    /** `doEnd`: finish a drag, confirming if the threshold was reached. */
    method End()
      requires Valid()
      modifies this
      ensures Valid()
      ensures !old(sliding) ==>
                (percent == old(percent) && holding == old(holding)
                 && confirmed == old(confirmed) && confirmCalls == old(confirmCalls)
                 && activePointer == old(activePointer) && timerPending == old(timerPending))
      ensures old(sliding) ==> !sliding && activePointer.None?
      ensures old(sliding) && old(percent) >= threshold ==>
                confirmed && percent == 100.0 && timerPending && confirmCalls == old(confirmCalls) + 1
      ensures old(sliding) && old(percent) < threshold ==>
                !holding && percent == 0.0 && !confirmed && confirmCalls == old(confirmCalls)
    {
      if !sliding {
        return;
      }
      sliding := false;
      activePointer := None;
      if percent >= threshold && !confirmed {
        confirmed := true;
        percent := 100.0;
        confirmCalls := confirmCalls + 1;
        timerPending := true;
      } else {
        holding := false;
        percent := 0.0;
      }
    }

    /** `handlePointerUp` and `handlePointerCancel`: only the tracked pointer ends the drag. */
    method PointerRelease(pointerId: int)
      requires Valid()
      modifies this
      ensures Valid()
      ensures old(activePointer) == Some(pointerId) ==> activePointer == None && !sliding
      ensures old(activePointer) != Some(pointerId) ==>
                percent == old(percent) && holding == old(holding) && sliding == old(sliding)
                && confirmed == old(confirmed) && confirmCalls == old(confirmCalls)
                && activePointer == old(activePointer) && timerPending == old(timerPending)
      ensures old(activePointer) == Some(pointerId) && old(percent) >= threshold ==>
                confirmed && percent == 100.0 && timerPending && confirmCalls == old(confirmCalls) + 1
      ensures old(activePointer) == Some(pointerId) && old(percent) < threshold ==>
                !holding && percent == 0.0 && !confirmed && confirmCalls == old(confirmCalls)
    {
      if activePointer != Some(pointerId) {
        return;
      }
      End();
    }

    /** The 600 ms reset after a confirmation. */
    method ResetTimerFired()
      requires Valid() && timerPending
      modifies this
      ensures Valid() && !holding && !confirmed && percent == 0.0 && !timerPending
      ensures sliding == old(sliding) && confirmCalls == old(confirmCalls) && activePointer == old(activePointer)
    {
      holding := false;
      confirmed := false;
      percent := 0.0;
      timerPending := false;
    }

    /** The confirmed look: confirmed with the handle at 100. */
    function ShowsConfirmed(): (b: bool)
      reads this
      requires Valid()
      ensures b <==> confirmed
    {
      confirmed && percent == 100.0
    }
  }
}
