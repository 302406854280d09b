/**
 * The activity feed: task updates and QA results are prepended and the list
 * is cut to `maxItems`; each row shows the last path segment of its task id
 * and expands a long detail on hover or click.
 */
module ActivityFeed {
  import opened Common
  import opened FeedText

  const DEFAULT_MAX_ITEMS: int := 50
  /** A detail longer than this many characters can be expanded. */
  const LONG_DETAIL: nat := 40

  /** An activity entry: `{ id, taskId, agent, action, detail, createdAt }`. */
  datatype Event = Event(
    id: int,
    taskId: Option<string>,
    agent: string,
    action: string,
    detail: Option<string>,
    createdAt: Option<int>)

  /** `s.split('/').pop()`: the part after the last '/', the whole string without one. */
  function LastSegment(s: string): (r: string)
    ensures forall i :: 0 <= i < |r| ==> r[i] != '/'
    ensures |r| <= |s| && r == s[|s| - |r|..]
    ensures |r| < |s| ==> s[|s| - |r| - 1] == '/'
  {
    if s == [] then []
    else if s[|s| - 1] == '/' then []
    else LastSegment(s[..|s| - 1]) + [s[|s| - 1]]
  }

  /** The segment after a '/' that closes a path is the file name itself. */
  lemma LastSegmentOfPath(dir: string, name: string)
    requires forall i :: 0 <= i < |name| ==> name[i] != '/'
    ensures LastSegment(dir + "/" + name) == name
  {
    var s := dir + "/" + name;
    var r := LastSegment(s);
    assert s[|s| - |name| - 1] == '/';
    assert |r| <= |name|;
    assert s[|s| - |name|..] == name;
  }

  /**
   * `taskId?.split('/').pop() || taskId || ''`: the last segment, the whole
   * id when that segment is empty, '' without an id.
   */
  function TaskLabel(taskId: Option<string>): (l: string)
    ensures taskId.None? ==> l == ""
    ensures taskId.Some? && LastSegment(taskId.value) != "" ==> l == LastSegment(taskId.value)
    ensures taskId.Some? && LastSegment(taskId.value) == "" ==> l == taskId.value
  {
    match taskId
    case None => ""
    case Some(id) => if LastSegment(id) != "" then LastSegment(id) else id
  }

  /** `(ev.detail || '').length > 40`, counted in UTF-16 code units. */
  predicate IsLong(detail: Option<string>)
  {
    |Utf16(StringOr(detail, ""))| > LONG_DETAIL
  }

  /** The entry a `task:updated` event prepends. */
  function StatusEvent(taskId: Option<string>, status: Option<string>, now: int): (e: Event)
    ensures e.action == "status_change" && e.agent == "system" && e.taskId == taskId
    ensures e.detail == Some(StatusText(status)) && e.createdAt == Some(now)
  {
    Event(now, taskId, "system", "status_change", Some(StatusText(status)), Some(now))
  }

  /** The entry a `qa:result` event prepends; `errors` is the rendered error count. */
  function QAEvent(taskId: Option<string>, valid: bool, errors: string, now: int): (e: Event)
    ensures e.agent == "qa" && e.taskId == taskId && e.createdAt == Some(now)
    ensures valid ==> e.action == "approval" && e.detail == Some("validation passed")
    ensures !valid ==> e.action == "rejection" && e.detail == Some(errors + " error(s)")
  {
    Event(now, taskId, "qa", if valid then "approval" else "rejection",
          Some(if valid then "validation passed" else errors + " error(s)"), Some(now))
  }

  /** `[e, ...prev].slice(0, maxItems)`: the new entry first, then the newest of the rest. */
  lemma BoundedPrepend(e: Event, prev: seq<Event>, maxItems: int)
    requires maxItems >= 1
    ensures |SliceTo([e] + prev, maxItems)| <= maxItems
    ensures SliceTo([e] + prev, maxItems)[0] == e
    ensures SliceTo([e] + prev, maxItems)[1..] == SliceTo(prev, maxItems - 1)
  {
    var r := SliceTo([e] + prev, maxItems);
    assert r == ([e] + prev)[..|r|];
    assert r[1..] == prev[..|r| - 1];
  }

  /** What the feed renders. */
  datatype View = EmptyState | Rows(events: seq<Event>)

  class FeedModel {
    var events: seq<Event>
    const maxItems: int

    /** `useState(initialEvents || [])`. */
    constructor (initialEvents: Option<seq<Event>>, maxItems: int)
      ensures this.maxItems == maxItems
      ensures events == (if initialEvents.Some? then initialEvents.value else [])
    {
      this.maxItems := maxItems;
      events := if initialEvents.Some? then initialEvents.value else [];
    }

    /** New `initialEvents` replace the list as they are, without the cut. */
    method InitialEventsChanged(initialEvents: Option<seq<Event>>)
      modifies this
      ensures initialEvents.Some? ==> events == initialEvents.value
      ensures initialEvents.None? ==> events == old(events)
    {
      if initialEvents.Some? {
        events := initialEvents.value;
      }
    }

    /** `handleTaskUpdate`: prepend a status change and cut to `maxItems`. */
    method TaskUpdate(taskId: Option<string>, status: Option<string>, now: int)
      modifies this
      ensures events == SliceTo([StatusEvent(taskId, status, now)] + old(events), maxItems)
      ensures maxItems >= 0 ==> |events| <= maxItems
      ensures maxItems >= 1 ==> events[0] == StatusEvent(taskId, status, now)
    {
      var e := Event(now, taskId, "system", "status_change", Some(StatusText(status)), Some(now));
      events := SliceTo([e] + events, maxItems);
    }

    /** `handleQAResult`: prepend an approval or rejection and cut to `maxItems`. */
    method QAResult(taskId: Option<string>, valid: bool, errors: string, now: int)
      modifies this
      ensures events == SliceTo([QAEvent(taskId, valid, errors, now)] + old(events), maxItems)
      ensures maxItems >= 0 ==> |events| <= maxItems
      ensures maxItems >= 1 ==> events[0] == QAEvent(taskId, valid, errors, now)
    {
      var e := Event(now, taskId, "qa", if valid then "approval" else "rejection",
                     Some(if valid then "validation passed" else errors + " error(s)"), Some(now));
      events := SliceTo([e] + events, maxItems);
    }

    /** The empty state exactly when there are no events; otherwise one row per event. */
    function Render(): (v: View)
      reads this
      ensures v == EmptyState <==> |events| == 0
      ensures v.Rows? ==> v.events == events
    {
      if |events| == 0 then EmptyState else Rows(events)
    }
  }

  /** One row's expansion state. */
  class EventItemModel {
    var expanded: bool
    const isLong: bool

    ghost predicate Valid()
      reads this
    {
      expanded ==> isLong
    }

    constructor (detail: Option<string>)
      ensures Valid() && !expanded && (isLong <==> IsLong(detail))
    {
      isLong := IsLong(detail);
      expanded := false;
    }

    /** Hovering expands a long detail and leaves a short one collapsed. */
    method MouseEnter()
      requires Valid()
      modifies this
      ensures Valid() && expanded == isLong
    {
      if isLong {
        expanded := true;
      }
    }

    /** Leaving always collapses. */
    method MouseLeave()
      requires Valid()
      modifies this
      ensures Valid() && !expanded
    {
      expanded := false;
    }

    /** A click toggles a long detail and does nothing to a short one. */
    method Click()
      requires Valid()
      modifies this
      ensures Valid()
      ensures isLong ==> expanded == !old(expanded)
      ensures !isLong ==> !expanded
    {
      if isLong {
        expanded := !expanded;
      }
    }
  }
}
