/**
 * The live output bar docked at the bottom of the page: one tab per output
 * session, a resizable height, minimise and maximise, and a status line with
 * the session's line counts and running time.
 *
 * The sessions, the active id, the minimised flag and the stored height come
 * from the live-output context; here they are fields the bar's handlers set.
 * The window height and the clock are parameters.
 */
module LiveOutputBar {
  import opened Common

  const MIN_HEIGHT: real := 160.0
  const MAX_HEIGHT_SHARE: real := 0.8

  datatype Line = Line(kind: string, text: string)

  datatype Session = Session(
    id: string,
    lines: seq<Line>,
    isActive: bool,
    startedAt: Option<int>,
    pinned: bool)

  /** `sessions.find(s => s.id === activeId) || null`: the first session with that id. */
  function ActiveSession(sessions: seq<Session>, activeId: Option<string>): (r: Option<Session>)
    ensures r.None? <==> activeId.None? || forall i :: 0 <= i < |sessions| ==> sessions[i].id != activeId.value
    ensures r.Some? ==> activeId.Some? && r.value.id == activeId.value
    ensures r.Some? ==> exists i :: 0 <= i < |sessions| && sessions[i] == r.value
                          && forall j :: 0 <= j < i ==> sessions[j].id != activeId.value
  {
    if activeId.None? || sessions == [] then None
    else if sessions[0].id == activeId.value then Some(sessions[0])
    else
      var rest := ActiveSession(sessions[1..], activeId);
      if rest.Some? then
        ghost var i :| 0 <= i < |sessions[1..]| && sessions[1..][i] == rest.value
                   && forall j :: 0 <= j < i ==> sessions[1..][j].id != activeId.value;
        assert sessions[i + 1] == rest.value;
        rest
      else rest
  }

  /** Lines of the given type: `lines.filter(l => l.type === kind).length`. */
  function LinesOfKind(lines: seq<Line>, kind: string): (n: nat)
    ensures n <= |lines|
    ensures n == |Filter(lines, (l: Line) => l.kind == kind)|
    ensures (forall i :: 0 <= i < |lines| ==> lines[i].kind != kind) <==> n == 0
  {
    CountIf(lines, (l: Line) => l.kind == kind)
  }

  /** Counting splits over the parts of a log: appended lines add their own count. */
  lemma LinesOfKindAppend(a: seq<Line>, b: seq<Line>, kind: string)
    ensures LinesOfKind(a + b, kind) == LinesOfKind(a, kind) + LinesOfKind(b, kind)
  {
    FilterConcat(a, b, (l: Line) => l.kind == kind);
  }

  /**
   * The status bar's seconds: whole seconds since the start while the
   * session runs with a start time, 0 otherwise.
   */
  function Elapsed(session: Session, now: int): (secs: int)
    ensures !(session.isActive && session.startedAt.Some? && session.startedAt.value != 0) ==> secs == 0
    ensures session.isActive && session.startedAt.Some? && session.startedAt.value != 0 ==>
              secs * 1000 <= now - session.startedAt.value < (secs + 1) * 1000
  {
    if session.isActive && session.startedAt.Some? && session.startedAt.value != 0 then
      (now - session.startedAt.value) / 1000
    else 0
  }

  /** What the status bar shows; a count of zero is not shown. */
  datatype Status = Status(
    running: bool,
    lineCount: nat,
    seconds: Option<int>,
    ops: Option<nat>,
    errors: Option<nat>,
    pinned: bool)

  function Shown(n: int): Option<int>
  {
    if n > 0 then Some(n) else None
  }

  /** `StatusBar`: nothing without a session. */
  function StatusBar(session: Option<Session>, now: int): (st: Option<Status>)
    ensures session.None? <==> st.None?
    ensures st.Some? ==> st.value.lineCount == |session.value.lines|
    ensures st.Some? ==> (st.value.ops.Some? <==> LinesOfKind(session.value.lines, "tool") > 0)
    ensures st.Some? && st.value.ops.Some? ==> st.value.ops.value == LinesOfKind(session.value.lines, "tool")
    ensures st.Some? ==> (st.value.errors.Some? <==> LinesOfKind(session.value.lines, "error") > 0)
    ensures st.Some? && st.value.errors.Some? ==> st.value.errors.value == LinesOfKind(session.value.lines, "error")
    ensures st.Some? && st.value.seconds.Some? ==> session.value.isActive && st.value.seconds.value > 0
    ensures st.Some? ==> st.value.seconds == Shown(Elapsed(session.value, now))
    ensures st.Some? ==> st.value.running == session.value.isActive && st.value.pinned == session.value.pinned
  {
    match session
    case None => None
    case Some(s) =>
      var tools := LinesOfKind(s.lines, "tool");
      var errors := LinesOfKind(s.lines, "error");
      Some(Status(s.isActive, |s.lines|, Shown(Elapsed(s, now)),
                  if tools > 0 then Some(tools) else None,
                  if errors > 0 then Some(errors) else None, s.pinned))
  }

  /** The panel's CSS height. */
  datatype Height = FullHeight | AutoHeight | Pixels(px: real)

  /** The height a drag to `clientY` gives: the start height plus the distance moved up, within bounds. */
  function ResizedHeight(origH: real, startY: real, clientY: real, innerHeight: real): (h: real)
    ensures h >= MIN_HEIGHT
    ensures h <= Max(MIN_HEIGHT, innerHeight * MAX_HEIGHT_SHARE)
    ensures MIN_HEIGHT <= origH + (startY - clientY) <= innerHeight * MAX_HEIGHT_SHARE ==>
              h == origH + (startY - clientY)
    ensures origH + (startY - clientY) <= MIN_HEIGHT ==> h == MIN_HEIGHT
    ensures origH + (startY - clientY) >= innerHeight * MAX_HEIGHT_SHARE ==>
              h == Max(MIN_HEIGHT, innerHeight * MAX_HEIGHT_SHARE)
  {
    Clamp(origH + (startY - clientY), MIN_HEIGHT, innerHeight * MAX_HEIGHT_SHARE)
  }

  /** Dragging further up never makes the panel lower. */
  lemma ResizeMonotone(origH: real, startY: real, y1: real, y2: real, innerHeight: real)
    requires y2 <= y1
    ensures ResizedHeight(origH, startY, y1, innerHeight) <= ResizedHeight(origH, startY, y2, innerHeight)
  {
  }

  class BarModel {
    var sessions: seq<Session>
    var activeId: Option<string>
    var minimized: bool
    var panelHeight: real
    var isMaximized: bool
    var isResizing: bool
    /** `resizeRef`: where the drag started and the height then. */
    var startY: real
    var origH: real

    constructor (sessions: seq<Session>, activeId: Option<string>, minimized: bool, panelHeight: real)
      ensures this.sessions == sessions && this.activeId == activeId
      ensures this.minimized == minimized && this.panelHeight == panelHeight
      ensures !isMaximized && !isResizing
    {
      this.sessions := sessions;
      this.activeId := activeId;
      this.minimized := minimized;
      this.panelHeight := panelHeight;
      isMaximized := false;
      isResizing := false;
      startY := 0.0;
      origH := 0.0;
    }

    /** `onResizeStart`: ignored while maximised. */
    method ResizeStart(clientY: real)
      modifies this
      ensures old(isMaximized) ==> isResizing == old(isResizing) && startY == old(startY) && origH == old(origH)
      ensures !old(isMaximized) ==> isResizing && startY == clientY && origH == panelHeight
      ensures panelHeight == old(panelHeight) && isMaximized == old(isMaximized)
      ensures minimized == old(minimized) && activeId == old(activeId) && sessions == old(sessions)
    {
      if isMaximized {
        return;
      }
      isResizing := true;
      startY, origH := clientY, panelHeight;
    }

    /** A mousemove: while resizing, the height follows the pointer within bounds. */
    method ResizeMove(clientY: real, innerHeight: real)
      modifies this
      ensures isResizing == old(isResizing) && isMaximized == old(isMaximized)
      ensures startY == old(startY) && origH == old(origH) && minimized == old(minimized)
      ensures old(isResizing) ==> panelHeight == ResizedHeight(origH, startY, clientY, innerHeight)
      ensures !old(isResizing) ==> panelHeight == old(panelHeight)
      ensures activeId == old(activeId) && sessions == old(sessions)
    {
      if isResizing {
        panelHeight := ResizedHeight(origH, startY, clientY, innerHeight);
      }
    }

    /** A mouseup ends the drag. */
    method ResizeEnd()
      modifies this
      ensures !isResizing && panelHeight == old(panelHeight) && isMaximized == old(isMaximized)
      ensures minimized == old(minimized) && activeId == old(activeId) && sessions == old(sessions)
      ensures startY == old(startY) && origH == old(origH)
    {
      isResizing := false;
    }

    /** A tab: the active tab of an expanded bar minimises it; any other click activates and expands. */
    method TabClick(id: string)
      modifies this
      ensures old(activeId) == Some(id) && !old(minimized) ==> minimized && activeId == old(activeId)
      ensures !(old(activeId) == Some(id) && !old(minimized)) ==> !minimized && activeId == Some(id)
      ensures isMaximized == old(isMaximized) && panelHeight == old(panelHeight) && sessions == old(sessions)
      ensures isResizing == old(isResizing)
      ensures startY == old(startY) && origH == old(origH)
    {
      if activeId == Some(id) && !minimized {
        minimized := true;
      } else {
        activeId := Some(id);
        minimized := false;
      }
    }

    /** The minimise button toggles. */
    method MinimizeClick()
      modifies this
      ensures minimized == !old(minimized) && isMaximized == old(isMaximized)
      ensures activeId == old(activeId) && panelHeight == old(panelHeight) && sessions == old(sessions)
      ensures isResizing == old(isResizing)
      ensures startY == old(startY) && origH == old(origH)
    {
      minimized := !minimized;
    }

    /** The maximise button toggles maximised and always expands. */
    method MaximizeClick()
      modifies this
      ensures isMaximized == !old(isMaximized) && !minimized
      ensures activeId == old(activeId) && panelHeight == old(panelHeight) && sessions == old(sessions)
      ensures isResizing == old(isResizing)
      ensures startY == old(startY) && origH == old(origH)
    {
      isMaximized := !isMaximized;
      minimized := false;
    }

    function Active(): (s: Option<Session>)
      reads this
      ensures s == ActiveSession(sessions, activeId)
    {
      ActiveSession(sessions, activeId)
    }

    /** The height style: near full height when maximised, auto when minimised, else the stored pixels. */
    function PanelHeight(): (h: Height)
      reads this
      ensures isMaximized <==> h == FullHeight
      ensures !isMaximized && minimized <==> h == AutoHeight
      ensures !isMaximized && !minimized ==> h == Pixels(panelHeight)
    {
      if isMaximized then FullHeight else if minimized then AutoHeight else Pixels(panelHeight)
    }

    /**
     * The drag handle is there only for a bar that is neither minimised nor
     * maximised: exactly when the panel has a pixel height to drag.
     */
    function ResizeHandleShown(): (shown: bool)
      reads this
      ensures shown <==> PanelHeight().Pixels?
    {
      !minimized && !isMaximized
    }

    /** Nothing renders without open sessions; otherwise the panel at its height. */
    function Render(hasOpenSessions: bool): (r: Option<Height>)
      reads this
      ensures r.None? <==> !hasOpenSessions
      ensures r.Some? ==> r.value == PanelHeight()
    {
      if hasOpenSessions then Some(PanelHeight()) else None
    }
  }
}
