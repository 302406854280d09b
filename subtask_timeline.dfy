/**
 * The subtask timeline: a collapsible header with the done count and a
 * rounded progress percent, and one row per subtask whose description can be
 * expanded.
 */
module SubtaskTimeline {
  import opened Common

  /** The statuses with a style of their own; any other uses the pending style. */
  const STYLED_STATUSES: set<string> :=
    {"pending", "in_progress", "code_complete", "tests_passing", "validated", "completed", "rework", "failed"}

  /** The statuses that count as done. */
  const DONE_STATUSES: set<string> := {"completed", "validated", "tests_passing"}

  const COMMIT_CHARS: nat := 7

  datatype Subtask = Subtask(
    id: string,
    title: Option<string>,
    status: string,
    description: Option<string>,
    commitHash: Option<string>)

  predicate IsDone(st: Subtask)
  {
    st.status in DONE_STATUSES
  }

  /** `doneCount`: the subtasks whose status is completed, validated or tests_passing. */
  function DoneCount(subtasks: seq<Subtask>): (n: nat)
    ensures n <= |subtasks|
    ensures n == |Filter(subtasks, IsDone)|
    ensures n == |subtasks| <==> forall i :: 0 <= i < |subtasks| ==> IsDone(subtasks[i])
    ensures n == 0 <==> forall i :: 0 <= i < |subtasks| ==> !IsDone(subtasks[i])
  {
    CountIf(subtasks, IsDone)
  }

  /**
   * `Math.round(done / n * 100)` for at least one subtask: the whole percent
   * nearest to the exact ratio, halves rounded up.
   */
  function Progress(done: nat, n: nat): (p: nat)
    requires 0 < n && done <= n
    ensures p <= 100
    ensures (2 * p - 1) * n <= 200 * done < (2 * p + 1) * n
    ensures done == n ==> p == 100
    ensures done == 0 ==> p == 0
  {
    var p := (200 * done + n) / (2 * n);
    ProgressNearest(done, n, p);
    p
  }

  lemma ProgressNearest(done: nat, n: nat, p: nat)
    requires 0 < n && done <= n && p == (200 * done + n) / (2 * n)
    ensures p <= 100
    ensures (2 * p - 1) * n <= 200 * done < (2 * p + 1) * n
    ensures done == n ==> p == 100
    ensures done == 0 ==> p == 0
  {
    var r := (200 * done + n) % (2 * n);
    var pn := p * n;
    assert 200 * done + n == 2 * pn + r && 0 <= r < 2 * n by {
      assert 200 * done + n == p * (2 * n) + r;
      assert p * (2 * n) == 2 * pn;
    }
    assert (2 * p - 1) * n == 2 * pn - n && (2 * p + 1) * n == 2 * pn + n;
    assert p <= 100 by {
      MulSign(p - 100, n);
    }
    if done == n {
      DivUnique(200 * done + n, 2 * n, 100, n);
    }
    if done == 0 {
      DivUnique(200 * done + n, 2 * n, 0, n);
    }
  }

  /** The status badge's style key: a known status, else 'pending'. */
  function StyleKey(status: string): (k: string)
    ensures k in STYLED_STATUSES
    ensures status in STYLED_STATUSES ==> k == status
    ensures status !in STYLED_STATUSES ==> k == "pending"
  {
    if status in STYLED_STATUSES then status else "pending"
  }

  /** `hasDesc`: a description with something in it besides white space. */
  predicate HasDescription(st: Subtask)
  {
    st.description.Some? && !IsBlank(st.description.value)
  }

  /** The header's '<n> subtask(s)' label: singular exactly for one subtask. */
  function CountLabel(n: nat): (l: string)
    ensures l == NatToString(n) + (if n == 1 then " subtask" else " subtasks")
  {
    NatToString(n) + " subtask" + (if n != 1 then "s" else "")
  }

  /** A row as drawn. */
  datatype Row = Row(
    title: string,
    statusLabel: string,
    style: string,
    expanded: bool,
    /** The first seven characters of the commit, under an expanded description. */
    commit: Option<string>)

  /** The header and, while open, the rows. */
  datatype View =
    | NoSubtasks
    | Timeline(countLabel: string, done: nat, total: nat, progress: nat, rows: seq<Row>)

  /** The timeline's open flag and the id of the expanded row. */
  class TimelineModel {
    var open: bool
    var expandedId: Option<string>

    constructor (defaultOpen: bool)
      ensures open == defaultOpen && expandedId.None?
    {
      open := defaultOpen;
      expandedId := None;
    }

    /** The header toggles the list. */
    method HeaderClick()
      modifies this
      ensures open == !old(open) && expandedId == old(expandedId)
    {
      open := !open;
    }

    /** A row with a description toggles between expanded and collapsed; one without ignores the click. */
    method RowClick(st: Subtask)
      modifies this
      ensures open == old(open)
      ensures !HasDescription(st) ==> expandedId == old(expandedId)
      ensures HasDescription(st) && old(expandedId) == Some(st.id) ==> expandedId.None?
      ensures HasDescription(st) && old(expandedId) != Some(st.id) ==> expandedId == Some(st.id)
    {
      if HasDescription(st) {
        expandedId := if expandedId == Some(st.id) then None else Some(st.id);
      }
    }

    function RowOf(st: Subtask): (r: Row)
      reads this
      ensures r.title == StringOr(st.title, st.id)
      ensures r.statusLabel == UnderscoresToSpaces(st.status) && r.style == StyleKey(st.status)
      ensures r.expanded <==> expandedId == Some(st.id)
      ensures r.commit.Some? <==>
                expandedId == Some(st.id) && HasDescription(st) && StringOr(st.commitHash, "") != ""
      ensures r.commit.Some? ==> r.commit.value == Take(st.commitHash.value, COMMIT_CHARS)
    {
      var expanded := expandedId == Some(st.id);
      Row(StringOr(st.title, st.id), UnderscoresToSpaces(st.status), StyleKey(st.status), expanded,
          if expanded && HasDescription(st) && st.commitHash.Some? && st.commitHash.value != ""
          then Some(Take(st.commitHash.value, COMMIT_CHARS)) else None)
    }

    /** A missing or empty list shows the placeholder; otherwise the header, and the rows while open. */
    function Render(subtasks: Option<seq<Subtask>>): (v: View)
      reads this
      ensures v.NoSubtasks? <==> subtasks.None? || subtasks.value == []
      ensures v.Timeline? ==>
                var s := subtasks.value;
                && v.countLabel == CountLabel(|s|) && v.total == |s|
                && v.done == DoneCount(s) && v.progress == Progress(DoneCount(s), |s|)
                && (open ==> |v.rows| == |s| && forall i :: 0 <= i < |s| ==> v.rows[i] == RowOf(s[i]))
                && (!open ==> v.rows == [])
    {
      if subtasks.None? || subtasks.value == [] then NoSubtasks
      else
        var s := subtasks.value;
        var done := DoneCount(s);
        Timeline(CountLabel(|s|), done, |s|, Progress(done, |s|),
                 if open then seq(|s|, i requires 0 <= i < |s| reads this => RowOf(s[i])) else [])
    }
  }
}
