/**
 * The standalone notification dropdown: the list comes from its owner, the
 * panel keeps only whether it is open and an unread count that follows the
 * list's length until the bell is clicked.
 */
module NotificationPanel {
  import opened Common
  import opened FeedText

  /** The dot colour of each known notification type. */
  const TYPE_COLORS: map<string, string> := map[
    "task" := "bg-info", "success" := "bg-success", "error" := "bg-danger",
    "warning" := "bg-warning", "agent" := "bg-purple", "invite" := "bg-accent"]

  /** `typeColors[n.type] || typeColors.task`: an unknown type gets the task colour. */
  function TypeColor(kind: string): (c: string)
    ensures kind in TYPE_COLORS ==> c == TYPE_COLORS[kind]
    ensures kind !in TYPE_COLORS ==> c == "bg-info"
    ensures c in TYPE_COLORS.Values
  {
    if kind in TYPE_COLORS then TYPE_COLORS[kind] else TYPE_COLORS["task"]
  }

  class PanelModel {
    var open: bool
    var unread: int
    /** The list length the sync effect last ran for. */
    var seenLength: nat
    /** The ids passed to `onDismiss`, in order. */
    var dismissCalls: seq<NoticeId>
    /** Calls of `onClearAll`. */
    var clearAllCalls: nat

    /** Mounting with `length` notifications: closed, all of them unread. */
    constructor (length: nat)
      ensures !open && unread == length && seenLength == length
      ensures dismissCalls == [] && clearAllCalls == 0
    {
      open := false;
      unread := length;
      seenLength := length;
      dismissCalls := [];
      clearAllCalls := 0;
    }

    /** A render with `length` notifications: the effect resyncs unread only when the length changed. */
    method Render(length: nat)
      modifies this
      ensures seenLength == length && open == old(open)
      ensures length != old(seenLength) ==> unread == length
      ensures length == old(seenLength) ==> unread == old(unread)
      ensures dismissCalls == old(dismissCalls) && clearAllCalls == old(clearAllCalls)
    {
      if length != seenLength {
        unread := length;
        seenLength := length;
      }
    }

    /** The bell: toggles the dropdown and marks everything read. */
    method BellClick()
      modifies this
      ensures open == !old(open) && unread == 0 && seenLength == old(seenLength)
      ensures dismissCalls == old(dismissCalls) && clearAllCalls == old(clearAllCalls)
    {
      open := !open;
      unread := 0;
    }

    /** A document mousedown while open: outside the panel it closes. */
    method DocumentMouseDown(insidePanel: bool)
      modifies this
      ensures open == (old(open) && insidePanel)
      ensures unread == old(unread) && seenLength == old(seenLength)
      ensures dismissCalls == old(dismissCalls) && clearAllCalls == old(clearAllCalls)
    {
      if open && !insidePanel {
        open := false;
      }
    }

    /** The badge on the bell. */
    function BadgeText(): (b: Option<string>)
      reads this
      ensures b == Badge(unread)
      ensures b.None? <==> unread <= 0
    {
      Badge(unread)
    }

    /** 'Clear all' is rendered only in the open dropdown of a non-empty list. */
    predicate ClearAllShown(notifications: seq<Notice>)
      reads this
    {
      open && |notifications| > 0
    }

    /** The ✕ on entry `i`: `onDismiss` receives that entry's own id. */
    method DismissClick(notifications: seq<Notice>, i: nat)
      requires open && i < |notifications|
      modifies this
      ensures dismissCalls == old(dismissCalls) + [notifications[i].id]
      ensures open == old(open) && unread == old(unread) && seenLength == old(seenLength)
      ensures clearAllCalls == old(clearAllCalls)
    {
      dismissCalls := dismissCalls + [notifications[i].id];
    }

    /** 'Clear all': calls `onClearAll` once. */
    method ClearAllClick(notifications: seq<Notice>)
      requires ClearAllShown(notifications)
      modifies this
      ensures clearAllCalls == old(clearAllCalls) + 1
      ensures open == old(open) && unread == old(unread) && seenLength == old(seenLength)
      ensures dismissCalls == old(dismissCalls)
    {
      clearAllCalls := clearAllCalls + 1;
    }
  }
}
