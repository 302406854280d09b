/**
 * The component playground's page logic: the mobile header that hides on
 * scroll down, the scroll spy that highlights the topmost visible section,
 * the sidebar click that steps the highlight through the sections in
 * between, and the small demo handlers (cart toggle, progress buttons, path
 * truncation).
 *
 * The DOM is reduced to parameters: whether a clicked section exists, the
 * live top of each section (None when it is not in the page), and the
 * observer's entries. Timers are methods the caller invokes when they fire.
 */
module Playground {
  import opened Common

  const HEADER_ALWAYS_BELOW: real := 60.0
  const SCROLL_SLACK: real := 8.0
  const PATH_LIMIT: nat := 35
  const PATH_TAIL: nat := 32

  /** The first index of `x` in `s`, or -1: `findIndex`. */
  function IndexOf(s: seq<string>, x: string): (i: int)
    ensures -1 <= i < |s|
    ensures i == -1 <==> x !in s
    ensures i >= 0 ==> s[i] == x && forall j :: 0 <= j < i ==> s[j] != x
  {
    if s == [] then -1
    else if s[0] == x then 0
    else
      var r := IndexOf(s[1..], x);
      if r == -1 then -1 else r + 1
  }

  /** The delay between two highlighted steps: 400 ms spread over the distance, at most 60 ms. */
  function StepDelay(distance: nat): (d: real)
    requires distance > 0
    ensures 0.0 < d <= 60.0
    ensures d * (distance as real) <= 400.0
    ensures d < 60.0 ==> d * (distance as real) == 400.0
  {
    var share := 400.0 / (distance as real);
    assert share * (distance as real) == 400.0;
    Min(60.0, share)
  }

  /**
   * A click highlights its target at once when the current item is not in the
   * navigation, when the target is the current item or next to it, or when a
   * run is already in progress.
   */
  predicate JumpsDirectly(from: int, to: int, stepping: bool)
  {
    from < 0 || from == to || Abs(from - to) <= 1 || stepping
  }

  function Abs(x: int): nat
  {
    if x < 0 then -x else x
  }

  /** The items a run from index `from` to index `to` highlights, in order, ending on `to`. */
  function StepPath(ids: seq<string>, from: int, to: int): (p: seq<string>)
    requires 0 <= from < |ids| && 0 <= to < |ids|
    ensures |p| == Abs(to - from)
    ensures from < to ==> forall k :: 0 <= k < |p| ==> p[k] == ids[from + k + 1]
    ensures to < from ==> forall k :: 0 <= k < |p| ==> p[k] == ids[from - k - 1]
  {
    seq(Abs(to - from), k requires 0 <= k < Abs(to - from) =>
      ids[if from < to then from + k + 1 else from - k - 1])
  }

  /** A run one step longer highlights one more item. */
  lemma StepPathExtend(ids: seq<string>, from: int, cur: int, dir: int)
    requires 0 <= from < |ids| && 0 <= cur < |ids| && 0 <= cur + dir < |ids|
    requires (dir == 1 && from <= cur) || (dir == -1 && cur <= from)
    ensures StepPath(ids, from, cur + dir) == StepPath(ids, from, cur) + [ids[cur + dir]]
  {
    var a := StepPath(ids, from, cur + dir);
    var b := StepPath(ids, from, cur) + [ids[cur + dir]];
    assert |a| == |b|;
    forall k | 0 <= k < |a|
      ensures a[k] == b[k]
    {
    }
  }

  /** An intersection observer entry: a section's id and whether it now intersects. */
  datatype Entry = Entry(id: string, isIntersecting: bool)

  /** `Set.add` on an insertion-ordered set. */
  function SetAdd(s: seq<string>, x: string): (r: seq<string>)
    ensures x in r && forall y :: y in s ==> y in r
    ensures forall y :: y in r ==> y == x || y in s
  {
    if x in s then s else s + [x]
  }

  /** `Set.delete`. */
  function SetDelete(s: seq<string>, x: string): (r: seq<string>)
    ensures x !in r
    ensures forall y :: y in r <==> y in s && y != x
  {
    Filter(s, (y: string) => y != x)
  }

  /** The visible set after a batch of entries, applied in order. */
  function ApplyEntries(visible: seq<string>, entries: seq<Entry>): (r: seq<string>)
    decreases |entries|
  {
    if entries == [] then visible
    else
      var last := entries[|entries| - 1];
      var before := ApplyEntries(visible, entries[..|entries| - 1]);
      if last.isIntersecting then SetAdd(before, last.id) else SetDelete(before, last.id)
  }

  /** The last entry for an id decides whether it is visible afterwards. */
  lemma {:induction false} LastEntryDecides(visible: seq<string>, entries: seq<Entry>, i: nat)
    requires i < |entries|
    requires forall j :: i < j < |entries| ==> entries[j].id != entries[i].id
    ensures entries[i].id in ApplyEntries(visible, entries) <==> entries[i].isIntersecting
    decreases |entries|
  {
    if i < |entries| - 1 {
      var prefix := entries[..|entries| - 1];
      assert prefix[i] == entries[i];
      LastEntryDecides(visible, prefix, i);
    }
  }

  /** A path over 35 characters shows '...' and its last 32; shorter ones, and none, are kept. */
  function TruncPath(path: Option<string>): (r: Option<string>)
    ensures path.Some? && |path.value| > PATH_LIMIT ==>
              r.Some? && |r.value| == PATH_LIMIT && r.value[..3] == "..."
              && r.value[3..] == path.value[|path.value| - PATH_TAIL..]
    ensures !(path.Some? && |path.value| > PATH_LIMIT) ==> r == path
  {
    if path.Some? && |path.value| > PATH_LIMIT then
      Some("..." + path.value[|path.value| - PATH_TAIL..])
    else path
  }

  /** The cart button: an id in the cart leaves it, any other id joins it. */
  function ToggleCart(cart: set<int>, id: int): (r: set<int>)
    ensures id in r <==> id !in cart
    ensures forall x :: x != id ==> (x in r <==> x in cart)
  {
    if id in cart then cart - {id} else cart + {id}
  }

  /** Toggling the same gift twice leaves the cart as it was. */
  lemma ToggleCartTwice(cart: set<int>, id: int)
    ensures ToggleCart(ToggleCart(cart, id), id) == cart
  {
  }

  /** The -10 button. */
  function ProgressDown(p: int): (r: int)
    ensures r == IntMax(0, p - 10)
    ensures 0 <= p <= 100 ==> 0 <= r <= 100 && r <= p
  {
    if p - 10 >= 0 then p - 10 else 0
  }

  /** The +10 button. */
  function ProgressUp(p: int): (r: int)
    ensures r == IntMin(100, p + 10)
    ensures 0 <= p <= 100 ==> 0 <= r <= 100 && r >= p
  {
    if p + 10 <= 100 then p + 10 else 100
  }

  /** The page's navigation state. */
  /**
   * The section nearest the top of the page: the index of the smallest top
   * among the ids still in the page, the first of equals; None when none is.
   */
  method HighestSection(ids: seq<string>, top: string -> Option<real>) returns (best: Option<nat>)
    ensures best.None? <==> forall k :: 0 <= k < |ids| ==> top(ids[k]).None?
    ensures best.Some? ==> best.value < |ids| && top(ids[best.value]).Some?
    ensures best.Some? ==> forall k :: 0 <= k < |ids| && top(ids[k]).Some? ==>
              top(ids[best.value]).value <= top(ids[k]).value
    ensures best.Some? ==> forall k :: 0 <= k < best.value && top(ids[k]).Some? ==>
              top(ids[best.value]).value < top(ids[k]).value
  {
    best := None;
    var bestTop: real := 0.0;
    var k := 0;
    while k < |ids|
      invariant 0 <= k <= |ids|
      invariant best.None? ==> forall j :: 0 <= j < k ==> top(ids[j]).None?
      invariant best.Some? ==> best.value < k && top(ids[best.value]) == Some(bestTop)
      invariant best.Some? ==> forall j :: 0 <= j < k && top(ids[j]).Some? ==> bestTop <= top(ids[j]).value
      invariant best.Some? ==> forall j :: 0 <= j < best.value && top(ids[j]).Some? ==> bestTop < top(ids[j]).value
    {
      var t := top(ids[k]);
      if t.Some? && (best.None? || t.value < bestTop) {
        best := Some(k);
        bestTop := t.value;
      }
      k := k + 1;
    }
  }

  class PageModel {
    /** The ids of the sidebar items that are not dividers, in order. */
    const navIds: seq<string>
    var active: string
    /** Every `setActiveSection` call, in order. */
    var highlights: seq<string>
    var visible: seq<string>
    /** Set by a click; the observer ignores its callbacks until a timer clears it. */
    var justClicked: bool
    var stepping: bool
    var cur: int
    var target: int
    var dir: int
    var stepDelay: real
    var menuOpen: bool
    var headerVisible: bool
    var lastScrollY: real

    /** A stepping run is on the list, not yet on its target, and heading for it. */
    ghost predicate Valid()
      reads this
    {
      stepping ==>
        && 0 <= cur < |navIds| && 0 <= target < |navIds|
        && ((dir == 1 && cur < target) || (dir == -1 && target < cur))
    }

    constructor (navIds: seq<string>, first: string)
      ensures Valid() && this.navIds == navIds && active == first && highlights == []
      ensures visible == [] && !justClicked && !stepping && !menuOpen && headerVisible && lastScrollY == 0.0
    {
      this.navIds := navIds;
      active := first;
      highlights := [];
      visible := [];
      justClicked := false;
      stepping := false;
      cur, target, dir := 0, 0, 1;
      stepDelay := 0.0;
      menuOpen := false;
      headerVisible := true;
      lastScrollY := 0.0;
    }

    method SetActive(id: string)
      modifies this
      ensures active == id && highlights == old(highlights) + [id]
      ensures visible == old(visible) && justClicked == old(justClicked) && stepping == old(stepping)
      ensures cur == old(cur) && target == old(target) && dir == old(dir) && stepDelay == old(stepDelay)
      ensures menuOpen == old(menuOpen) && headerVisible == old(headerVisible) && lastScrollY == old(lastScrollY)
    {
      active := id;
      highlights := highlights + [id];
    }

    /**
     * One animation frame after a scroll to `y`: near the top the header
     * shows; more than 8 px further down it hides and closes the menu; more
     * than 8 px back up it shows; the position is remembered every frame.
     */
    method ScrollFrame(y: real)
      requires Valid()
      modifies this
      ensures Valid() && lastScrollY == y
      ensures y < HEADER_ALWAYS_BELOW ==> headerVisible && menuOpen == old(menuOpen)
      ensures y >= HEADER_ALWAYS_BELOW && y > old(lastScrollY) + SCROLL_SLACK ==> !headerVisible && !menuOpen
      ensures y >= HEADER_ALWAYS_BELOW && y < old(lastScrollY) - SCROLL_SLACK ==>
                headerVisible && menuOpen == old(menuOpen)
      ensures y >= HEADER_ALWAYS_BELOW && old(lastScrollY) - SCROLL_SLACK <= y <= old(lastScrollY) + SCROLL_SLACK ==>
                headerVisible == old(headerVisible) && menuOpen == old(menuOpen)
      ensures active == old(active) && highlights == old(highlights) && stepping == old(stepping)
      ensures visible == old(visible) && justClicked == old(justClicked)
      ensures cur == old(cur) && target == old(target) && dir == old(dir) && stepDelay == old(stepDelay)
    {
      if y < HEADER_ALWAYS_BELOW {
        headerVisible := true;
      } else if y > lastScrollY + SCROLL_SLACK {
        headerVisible := false;
        menuOpen := false;
      } else if y < lastScrollY - SCROLL_SLACK {
        headerVisible := true;
      }
      lastScrollY := y;
    }

    /**
     * The scroll-spy callback: unless a click is pending, apply the entries to
     * the visible set, then highlight the visible section with the smallest
     * live top (the first of equals); nothing when none of them is in the page.
     */
    method Spy(entries: seq<Entry>, top: string -> Option<real>)
      requires Valid()
      modifies this
      ensures Valid() && stepping == old(stepping) && justClicked == old(justClicked)
      ensures old(justClicked) ==> visible == old(visible) && highlights == old(highlights) && active == old(active)
      ensures !old(justClicked) ==> visible == ApplyEntries(old(visible), entries)
      ensures !old(justClicked) && (forall k :: 0 <= k < |visible| ==> top(visible[k]).None?) ==>
                highlights == old(highlights) && active == old(active)
      ensures !old(justClicked) && (exists k :: 0 <= k < |visible| && top(visible[k]).Some?) ==>
                && highlights == old(highlights) + [active]
                && active in visible && top(active).Some?
                && (forall k :: 0 <= k < |visible| && top(visible[k]).Some? ==> top(active).value <= top(visible[k]).value)
                && exists b :: 0 <= b < |visible| && visible[b] == active &&
                     forall k :: 0 <= k < b && top(visible[k]).Some? ==> top(active).value < top(visible[k]).value
      ensures cur == old(cur) && target == old(target) && dir == old(dir) && stepDelay == old(stepDelay)
      ensures menuOpen == old(menuOpen) && headerVisible == old(headerVisible) && lastScrollY == old(lastScrollY)
    {
      if justClicked {
        return;
      }
      var i := 0;
      while i < |entries|
        invariant 0 <= i <= |entries| && Valid()
        invariant visible == ApplyEntries(old(visible), entries[..i])
        invariant highlights == old(highlights) && active == old(active)
        invariant stepping == old(stepping) && justClicked == old(justClicked)
        invariant cur == old(cur) && target == old(target) && dir == old(dir) && stepDelay == old(stepDelay)
        invariant menuOpen == old(menuOpen) && headerVisible == old(headerVisible) && lastScrollY == old(lastScrollY)
      {
        assert entries[..i + 1][..i] == entries[..i];
        if entries[i].isIntersecting {
          visible := SetAdd(visible, entries[i].id);
        } else {
          visible := SetDelete(visible, entries[i].id);
        }
        i := i + 1;
      }
      assert entries[..i] == entries;
      var best := HighestSection(visible, top);
      if best.Some? {
        SetActive(visible[best.value]);
        assert visible[best.value] == active;
      }
    }

    /** The guard timer after a click: the observer may highlight again. */
    method GuardTimerFired()
      requires Valid()
      modifies this
      ensures Valid() && !justClicked && active == old(active) && highlights == old(highlights)
      ensures stepping == old(stepping) && cur == old(cur) && target == old(target)
      ensures visible == old(visible) && dir == old(dir) && stepDelay == old(stepDelay)
      ensures menuOpen == old(menuOpen) && headerVisible == old(headerVisible) && lastScrollY == old(lastScrollY)
    {
      justClicked := false;
    }

    /**
     * `scrollTo(id)` for a sidebar item: a missing section does nothing; a
     * target at or next to the current item, an unknown current item, or a
     * click during a run jumps straight to it; otherwise a run starts that
     * steps towards it, at most 60 ms per step.
     */
    method ScrollTo(id: string, sectionExists: bool)
      requires Valid() && id in navIds
      modifies this
      ensures Valid()
      ensures visible == old(visible) && headerVisible == old(headerVisible) && lastScrollY == old(lastScrollY)
      ensures !sectionExists ==> active == old(active) && highlights == old(highlights)
                                 && stepping == old(stepping) && justClicked == old(justClicked)
                                 && cur == old(cur) && target == old(target) && dir == old(dir)
                                 && stepDelay == old(stepDelay) && menuOpen == old(menuOpen)
      ensures sectionExists ==> justClicked && !menuOpen
      ensures sectionExists && JumpsDirectly(IndexOf(navIds, old(active)), IndexOf(navIds, id), old(stepping)) ==>
                active == id && highlights == old(highlights) + [id] && stepping == old(stepping)
                && cur == old(cur) && target == old(target) && dir == old(dir) && stepDelay == old(stepDelay)
      ensures sectionExists && !JumpsDirectly(IndexOf(navIds, old(active)), IndexOf(navIds, id), old(stepping)) ==>
                var from := IndexOf(navIds, old(active)); var to := IndexOf(navIds, id);
                && stepping && cur == from && target == to && navIds[target] == id
                && dir == (if to > from then 1 else -1)
                && 0.0 < stepDelay <= 60.0
                && active == old(active) && highlights == old(highlights)
    {
      if !sectionExists {
        return;
      }
      var from := IndexOf(navIds, active);
      var to := IndexOf(navIds, id);
      menuOpen := false;
      justClicked := true;
      if JumpsDirectly(from, to, stepping) {
        SetActive(id);
        return;
      }
      stepping := true;
      dir := if to > from then 1 else -1;
      stepDelay := StepDelay(Abs(to - from));
      cur := from;
      target := to;
    }

    /** One step timer: highlight the next item; on the target the run ends. */
    method StepFired()
      requires Valid() && stepping
      modifies this
      ensures Valid() && cur == old(cur) + dir && dir == old(dir) && target == old(target)
      ensures active == navIds[cur] && highlights == old(highlights) + [navIds[cur]]
      ensures stepping <==> cur != target
      ensures justClicked == old(justClicked) && visible == old(visible) && stepDelay == old(stepDelay)
      ensures menuOpen == old(menuOpen) && headerVisible == old(headerVisible) && lastScrollY == old(lastScrollY)
    {
      cur := cur + dir;
      SetActive(navIds[cur]);
      if cur == target {
        stepping := false;
      }
    }

    /**
     * A run left to its timers: it highlights every item strictly between the
     * start and the target in order, ends on the target, and stops stepping.
     */
    method RunSteps()
      requires Valid() && stepping
      modifies this
      ensures Valid() && !stepping
      ensures highlights == old(highlights) + StepPath(navIds, old(cur), old(target))
      ensures active == navIds[old(target)]
      ensures cur == old(target) && target == old(target) && dir == old(dir)
      ensures visible == old(visible) && justClicked == old(justClicked) && stepDelay == old(stepDelay)
      ensures menuOpen == old(menuOpen) && headerVisible == old(headerVisible) && lastScrollY == old(lastScrollY)
    {
      ghost var from := cur;
      while stepping
        invariant Valid() && target == old(target) && dir == old(dir)
        invariant visible == old(visible) && justClicked == old(justClicked) && stepDelay == old(stepDelay)
        invariant menuOpen == old(menuOpen) && headerVisible == old(headerVisible) && lastScrollY == old(lastScrollY)
        invariant 0 <= cur < |navIds|
        invariant dir == 1 ==> from <= cur && (stepping ==> cur < target) && (!stepping ==> cur == target)
        invariant dir == -1 ==> cur <= from && (stepping ==> target < cur) && (!stepping ==> cur == target)
        invariant dir == 1 || dir == -1
        invariant highlights == old(highlights) + StepPath(navIds, from, cur)
        invariant cur != from ==> active == navIds[cur]
        decreases Abs(target - cur), stepping
      {
        StepPathExtend(navIds, from, cur, dir);
        StepFired();
      }
    }
  }
}
