/**
 * Text shared by the notification bar, the notification panel and the
 * activity feed: the relative-time buckets of `formatTime`, the unread badge,
 * and the rendering of a task status.
 *
 * Times are millisecond timestamps; `None` is a falsy time string. The clock
 * (`Date.now()`) is the parameter `now`, and the locale date string of the
 * oldest bucket is the parameter `dateText`.
 */
module FeedText {
  import opened Common

  const MINUTE_MS: int := 60000
  const HOUR_MS: int := 3600000
  const DAY_MS: int := 86400000

  /** What `formatTime` shows, before the numbers are rendered. */
  datatype TimeLabel = Blank | Now | Minutes(minutes: int) | Hours(hours: int) | DateLabel

  /**
   * `formatTime`: '' without a time, 'now' under a minute (a time in the
   * future included), whole minutes under an hour, whole hours under a day,
   * and the date beyond that.
   */
  function FormatTime(time: Option<int>, now: int): (l: TimeLabel)
    ensures l == Blank <==> time.None?
    ensures l == Now <==> time.Some? && now - time.value < MINUTE_MS
    ensures l.Minutes? <==> time.Some? && MINUTE_MS <= now - time.value < HOUR_MS
    ensures l.Hours? <==> time.Some? && HOUR_MS <= now - time.value < DAY_MS
    ensures l == DateLabel <==> time.Some? && now - time.value >= DAY_MS
    ensures l.Minutes? ==>
              (1 <= l.minutes <= 59 && l.minutes * MINUTE_MS <= now - time.value < (l.minutes + 1) * MINUTE_MS)
    ensures l.Hours? ==>
              (1 <= l.hours <= 23 && l.hours * HOUR_MS <= now - time.value < (l.hours + 1) * HOUR_MS)
  {
    match time
    case None => Blank
    case Some(t) =>
      var diff := now - t;
      if diff < MINUTE_MS then Now
      else if diff < HOUR_MS then Minutes(diff / MINUTE_MS)
      else if diff < DAY_MS then Hours(diff / HOUR_MS)
      else DateLabel
  }

  /** The label as text: `<n>m`, `<n>h`, or the locale date. */
  function TimeText(l: TimeLabel, dateText: string): (t: string)
    ensures l == Blank ==> t == ""
    ensures l == Now ==> t == "now"
    ensures l == DateLabel ==> t == dateText
    ensures l.Minutes? && l.minutes >= 0 ==>
              |t| >= 2 && t[|t| - 1] == 'm' && forall i :: 0 <= i < |t| - 1 ==> IsDigit(t[i])
    ensures l.Hours? && l.hours >= 0 ==>
              |t| >= 2 && t[|t| - 1] == 'h' && forall i :: 0 <= i < |t| - 1 ==> IsDigit(t[i])
    ensures l.Minutes? && l.minutes >= 0 ==> t == NatToString(l.minutes) + "m"
    ensures l.Hours? && l.hours >= 0 ==> t == NatToString(l.hours) + "h"
    ensures l.Minutes? && l.minutes >= 0 ==> DecimalValue(t[..|t| - 1]) == l.minutes
    ensures l.Hours? && l.hours >= 0 ==> DecimalValue(t[..|t| - 1]) == l.hours
  {
    match l
    case Blank => ""
    case Now => "now"
    case Minutes(m) =>
      if m >= 0 then
        var d := NatToString(m);
        NatToStringValue(m);
        assert (d + "m")[..|d|] == d;
        d + "m"
      else "m"
    case Hours(h) =>
      if h >= 0 then
        var d := NatToString(h);
        NatToStringValue(h);
        assert (d + "h")[..|d|] == d;
        d + "h"
      else "h"
    case DateLabel => dateText
  }

  /** The buckets in display order, from the most recent. */
  function Rank(l: TimeLabel): nat
  {
    match l
    case Blank => 0
    case Now => 1
    case Minutes(_) => 2
    case Hours(_) => 3
    case DateLabel => 4
  }

  /**
   * An older time never lands in a more recent bucket, and within the minute
   * and hour buckets it never shows a smaller count.
   */
  lemma {:induction false} FormatTimeMonotone(older: int, newer: int, now: int)
    requires older <= newer
    ensures Rank(FormatTime(Some(newer), now)) <= Rank(FormatTime(Some(older), now))
    ensures FormatTime(Some(newer), now).Minutes? && FormatTime(Some(older), now).Minutes? ==>
              FormatTime(Some(newer), now).minutes <= FormatTime(Some(older), now).minutes
    ensures FormatTime(Some(newer), now).Hours? && FormatTime(Some(older), now).Hours? ==>
              FormatTime(Some(newer), now).hours <= FormatTime(Some(older), now).hours
  {
    var a := FormatTime(Some(newer), now);
    var b := FormatTime(Some(older), now);
    if a.Minutes? && b.Minutes? {
      // a.minutes * M <= now - newer <= now - older < (b.minutes + 1) * M
      assert a.minutes * MINUTE_MS < (b.minutes + 1) * MINUTE_MS;
    }
    if a.Hours? && b.Hours? {
      assert a.hours * HOUR_MS < (b.hours + 1) * HOUR_MS;
    }
  }

  /** The unread badge: hidden at zero, the count up to 9, then '9+'. */
  function Badge(unread: int): (b: Option<string>)
    ensures b.None? <==> unread <= 0
    ensures unread > 9 ==> b == Some("9+")
    ensures 0 < unread <= 9 ==> b == Some([DigitChar(unread)])
    ensures b.Some? ==> 1 <= |b.value| <= 2
  {
    if unread <= 0 then None
    else if unread > 9 then Some("9+")
    else Some(NatToString(unread))
  }

  /**
   * `${status?.replace(/_/g, ' ')}`: every underscore becomes a space; a
   * missing status renders as 'undefined'.
   */
  function StatusText(status: Option<string>): (s: string)
    ensures status.None? ==> s == "undefined"
    ensures status.Some? ==> |s| == |status.value|
    ensures status.Some? ==>
              forall i :: 0 <= i < |s| ==> s[i] == (if status.value[i] == '_' then ' ' else status.value[i])
  {
    match status
    case None => "undefined"
    case Some(st) => UnderscoresToSpaces(st)
  }

  /** A notification id: a `Date.now()` stamp or a string such as `invite-<id>`. */
  datatype NoticeId = Stamp(ms: int) | Named(name: string)

  /** An entry of the notification list: `{ id, type, title, detail, time, inviteId }`. */
  datatype Notice = Notice(
    id: NoticeId,
    kind: string,
    title: string,
    detail: string,
    time: Option<int>,
    inviteId: Option<string>)
}
