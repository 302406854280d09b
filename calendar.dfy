/**
 * The calendar picker: the Monday-first month grid, month and year-page
 * navigation, and the days/months/years view machine.
 *
 * Months are numbered 0..11 as JavaScript's Date does. Dates follow the
 * proleptic Gregorian calendar; the weekday is derived from a day count
 * anchored at 1970-01-01, a Thursday.
 */
module Calendar {
  import opened Common

  /** A calendar date: `getFullYear()`, `getMonth()` (0-based), `getDate()`. */
  datatype CalDate = CalDate(year: int, month: int, day: int)

  /** One grid cell: a date and whether it lies outside the viewed month. */
  datatype Cell = Cell(date: CalDate, outside: bool)

  predicate IsLeap(y: int)
  {
    y % 4 == 0 && (y % 100 != 0 || y % 400 == 0)
  }

  function DaysInMonth(y: int, m: int): (n: int)
    requires 0 <= m < 12
    ensures 28 <= n <= 31
    ensures m == 1 ==> (n == 29 <==> IsLeap(y))
  {
    if m == 1 then (if IsLeap(y) then 29 else 28)
    else if m == 3 || m == 5 || m == 8 || m == 10 then 30
    else 31
  }

  predicate ValidDate(d: CalDate)
  {
    0 <= d.month < 12 && 1 <= d.day <= DaysInMonth(d.year, d.month)
  }

  /** `sameDay`: false when either side is missing, else the same calendar day. */
  function SameDay(a: Option<CalDate>, b: Option<CalDate>): (r: bool)
    ensures r <==> a.Some? && b.Some? && a.value == b.value
  {
    match (a, b)
    case (Some(x), Some(y)) => x.year == y.year && x.month == y.month && x.day == y.day
    case _ => false
  }

  // ---------------------------------------------------------------------
  // Month navigation
  // ---------------------------------------------------------------------

  /** `prevMonth`: January steps back to December of the previous year. */
  function PrevMonthOf(y: int, m: int): (r: (int, int))
    requires 0 <= m < 12
    ensures 0 <= r.1 < 12
    ensures m == 0 ==> r == (y - 1, 11)
    ensures m > 0 ==> r == (y, m - 1)
  {
    if m == 0 then (y - 1, 11) else (y, m - 1)
  }

  /** `nextMonth`: December steps forward to January of the next year. */
  function NextMonthOf(y: int, m: int): (r: (int, int))
    requires 0 <= m < 12
    ensures 0 <= r.1 < 12
    ensures m == 11 ==> r == (y + 1, 0)
    ensures m < 11 ==> r == (y, m + 1)
  {
    if m == 11 then (y + 1, 0) else (y, m + 1)
  }

  /** The two month steps undo each other. */
  lemma MonthStepsInverse(y: int, m: int)
    requires 0 <= m < 12
    ensures var p := PrevMonthOf(y, m); NextMonthOf(p.0, p.1) == (y, m)
    ensures var n := NextMonthOf(y, m); PrevMonthOf(n.0, n.1) == (y, m)
  {
  }

  /** Month index counted from year 0: each step moves it by exactly one. */
  function MonthIndex(y: int, m: int): int { 12 * y + m }

  lemma MonthStepsAreUnit(y: int, m: int)
    requires 0 <= m < 12
    ensures var p := PrevMonthOf(y, m); MonthIndex(p.0, p.1) == MonthIndex(y, m) - 1
    ensures var n := NextMonthOf(y, m); MonthIndex(n.0, n.1) == MonthIndex(y, m) + 1
  {
  }

  // ---------------------------------------------------------------------
  // Day numbering and weekdays
  // ---------------------------------------------------------------------

  /** Leap years in [0, y) (year 0 is a leap year). */
  function LeapsBefore(y: int): int
  {
    (y + 3) / 4 - (y + 99) / 100 + (y + 399) / 400
  }

  function YearStart(y: int): int
  {
    365 * y + LeapsBefore(y)
  }

  /** Days in the months before month `m` of year `y`. */
  function MonthStart(y: int, m: int): int
    requires 0 <= m < 12
  {
    [0, 31, 59, 90, 120, 151, 181, 212, 243, 273, 304, 334][m]
      + (if m >= 2 && IsLeap(y) then 1 else 0)
  }

  /** A day count: consecutive calendar days have consecutive serials. */
  function Serial(d: CalDate): int
    requires 0 <= d.month < 12
  {
    YearStart(d.year) + MonthStart(d.year, d.month) + d.day - 1
  }

  /** `getDay()`: 0 for Sunday through 6 for Saturday. */
  function Weekday(d: CalDate): (w: int)
    requires 0 <= d.month < 12
    ensures 0 <= w < 7
  {
    (Serial(d) - Serial(CalDate(1970, 0, 1)) + 4) % 7
  }

  lemma CeilStep(y: int)
    ensures (y + 4) / 4 - (y + 3) / 4 == (if y % 4 == 0 then 1 else 0)
    ensures (y + 100) / 100 - (y + 99) / 100 == (if y % 100 == 0 then 1 else 0)
    ensures (y + 400) / 400 - (y + 399) / 400 == (if y % 400 == 0 then 1 else 0)
  {
    MultiplesStep(y, 4, y + 3, y + 4);
    MultiplesStep(y, 100, y + 99, y + 100);
    MultiplesStep(y, 400, y + 399, y + 400);
  }

  /** A multiple of `a * b` is a multiple of `b`. */
  lemma MultipleOfFactor(y: int, a: nat, b: nat)
    requires a > 0 && b > 0 && y % (a * b) == 0
    ensures y % b == 0
  {
    var k := y / (a * b);
    assert y == (a * k) * b + 0 by {
      assert y == k * (a * b);
      assert k * (a * b) == (a * k) * b;
    }
    DivUnique(y, b, a * k, 0);
  }

  lemma DivisibilityChain(y: int)
    ensures y % 400 == 0 ==> y % 100 == 0
    ensures y % 100 == 0 ==> y % 4 == 0
  {
    if y % 400 == 0 {
      MultipleOfFactor(y, 4, 100);
    }
    if y % 100 == 0 {
      MultipleOfFactor(y, 25, 4);
    }
  }

  lemma YearLength(y: int)
    ensures YearStart(y + 1) == YearStart(y) + (if IsLeap(y) then 366 else 365)
  {
    CeilStep(y);
    DivisibilityChain(y);
    var d := LeapsBefore(y + 1) - LeapsBefore(y);
    assert d == (if y % 4 == 0 then 1 else 0) - (if y % 100 == 0 then 1 else 0)
                + (if y % 400 == 0 then 1 else 0);
    assert d == (if IsLeap(y) then 1 else 0);
  }

  /** The first day of the next month follows the last day of this one. */
  lemma MonthBoundary(y: int, m: int)
    requires 0 <= m < 12
    ensures var n := NextMonthOf(y, m);
      Serial(CalDate(n.0, n.1, 1)) == Serial(CalDate(y, m, DaysInMonth(y, m))) + 1
  {
    if m == 11 {
      YearLength(y);
    }
  }

  // ---------------------------------------------------------------------
  // The JavaScript Date constructor, over the range the grid uses
  // ---------------------------------------------------------------------

  /** `new Date(y, …)` reads a year argument 0..99 as 1900..1999. */
  function JsYear(y: int): (r: int)
    ensures 0 <= y <= 99 ==> r == 1900 + y
    ensures !(0 <= y <= 99) ==> r == y
  {
    if 0 <= y <= 99 then 1900 + y else y
  }

  /**
   * `new Date(year, month, day)` for a month in 0..12 and a day within four
   * weeks of the month: day 0 and below fall into the previous month, days past
   * the month's end into the next one.
   */
  function MakeDate(year: int, month: int, day: int): (d: CalDate)
    requires 0 <= month <= 12 && -27 <= day <= 56
    ensures var y0 := if month == 12 then JsYear(year) + 1 else JsYear(year);
            var m0 := if month == 12 then 0 else month;
            var p := PrevMonthOf(y0, m0);
            var n := NextMonthOf(y0, m0);
            && (day < 1 ==> d == CalDate(p.0, p.1, DaysInMonth(p.0, p.1) + day))
            && (1 <= day <= DaysInMonth(y0, m0) ==> d == CalDate(y0, m0, day))
            && (day > DaysInMonth(y0, m0) ==> d == CalDate(n.0, n.1, day - DaysInMonth(y0, m0)))
  {
    var y0 := if month == 12 then JsYear(year) + 1 else JsYear(year);
    var m0 := if month == 12 then 0 else month;
    if day < 1 then
      var p := PrevMonthOf(y0, m0);
      CalDate(p.0, p.1, DaysInMonth(p.0, p.1) + day)
    else if day > DaysInMonth(y0, m0) then
      var n := NextMonthOf(y0, m0);
      CalDate(n.0, n.1, day - DaysInMonth(y0, m0))
    else
      CalDate(y0, m0, day)
  }

  /**
   * What the normalisation means: the result is a real date lying `day - 1`
   * days after the 1st of the (normalised) month.
   */
  lemma MakeDateIsOffset(year: int, month: int, day: int)
    requires 0 <= month <= 12 && -27 <= day <= 56
    ensures ValidDate(MakeDate(year, month, day))
    ensures var y0 := if month == 12 then JsYear(year) + 1 else JsYear(year);
            var m0 := if month == 12 then 0 else month;
            Serial(MakeDate(year, month, day)) == Serial(CalDate(y0, m0, 1)) + day - 1
  {
    var y0 := if month == 12 then JsYear(year) + 1 else JsYear(year);
    var m0 := if month == 12 then 0 else month;
    if day < 1 {
      var p := PrevMonthOf(y0, m0);
      MonthStepsInverse(y0, m0);
      MonthBoundary(p.0, p.1);
    } else if day > DaysInMonth(y0, m0) {
      MonthBoundary(y0, m0);
    }
  }

  // ---------------------------------------------------------------------
  // The month grid
  // ---------------------------------------------------------------------

  /** Blank-filling cells before the 1st: Monday-first offset of its weekday. */
  function LeadingCount(y: int, m: int): (n: int)
    requires 0 <= m < 12
    ensures 0 <= n < 7
  {
    (Weekday(CalDate(y, m, 1)) + 6) % 7
  }

  /** Cells needed after `len` cells to complete the last week. */
  function TrailingCount(len: int): (n: int)
    requires len >= 0
    ensures 0 <= n < 7 && (len + n) % 7 == 0
  {
    (7 - len % 7) % 7
  }

  /** The week is completed by exactly TrailingCount cells and by no fewer. */
  lemma TrailingUnique(len: int, t: int)
    requires len >= 0 && 0 <= t <= TrailingCount(len) && (len + t) % 7 == 0
    ensures t == TrailingCount(len)
  {
  }

  /**
   * The grid of month `month` of `year` (read as `new Date` reads it): the
   * last days of the previous month, every day of this month, then the first
   * days of the next month.
   */
  function CalendarGrid(year: int, month: int): seq<Cell>
    requires 0 <= month < 12
  {
    var y := JsYear(year);
    var start := LeadingCount(y, month);
    var last := DaysInMonth(y, month);
    var p := PrevMonthOf(y, month);
    var n := NextMonthOf(y, month);
    var lp := DaysInMonth(p.0, p.1);
    seq(start, j requires 0 <= j < start => Cell(CalDate(p.0, p.1, lp - start + 1 + j), true))
    + seq(last, j requires 0 <= j < last => Cell(CalDate(y, month, j + 1), false))
    + seq(TrailingCount(start + last), k => Cell(CalDate(n.0, n.1, k + 1), true))
  }

  lemma AppendNext<T>(s: seq<T>, k: nat, x: T)
    requires k < |s| && x == s[k]
    ensures s[..k] + [x] == s[..k + 1]
  {
  }

  lemma AppendNextAfter<T>(pre: seq<T>, s: seq<T>, k: nat, x: T)
    requires k < |s| && x == s[k]
    ensures pre + s[..k] + [x] == pre + s[..k + 1]
  {
    AppendNext(s, k, x);
  }

  /** Leading cell `j` of the grid: day lp - start + 1 + j of the previous month. */
  function LeadCell(year: int, month: int, j: int): Cell
    requires 0 <= month < 12
  {
    var y := JsYear(year);
    var p := PrevMonthOf(y, month);
    Cell(CalDate(p.0, p.1, DaysInMonth(p.0, p.1) - LeadingCount(y, month) + 1 + j), true)
  }

  function MidCell(year: int, month: int, j: int): Cell
  {
    Cell(CalDate(JsYear(year), month, j + 1), false)
  }

  function TrailCell(year: int, month: int, k: int): Cell
    requires 0 <= month < 12
  {
    var n := NextMonthOf(JsYear(year), month);
    Cell(CalDate(n.0, n.1, k + 1), true)
  }

  lemma GridParts(year: int, month: int)
    requires 0 <= month < 12
    ensures var y := JsYear(year);
      var start := LeadingCount(y, month);
      var last := DaysInMonth(y, month);
      CalendarGrid(year, month)
      == seq(start, j requires 0 <= j < start => LeadCell(year, month, j))
       + seq(last, j requires 0 <= j < last => MidCell(year, month, j))
       + seq(TrailingCount(start + last), k requires 0 <= k < TrailingCount(start + last) => TrailCell(year, month, k))
  {
  }

  /** `new Date(year, month, -i)` for i < start is leading cell start - 1 - i. */
  lemma LeadDate(year: int, month: int, i: int)
    requires 0 <= month < 12 && 0 <= i < LeadingCount(JsYear(year), month)
    ensures Cell(MakeDate(year, month, -i), true) == LeadCell(year, month, LeadingCount(JsYear(year), month) - 1 - i)
  {
  }

  lemma MidDate(year: int, month: int, i: int)
    requires 0 <= month < 12 && 1 <= i <= DaysInMonth(JsYear(year), month)
    ensures Cell(MakeDate(year, month, i), false) == MidCell(year, month, i - 1)
  {
  }

  lemma TrailDate(year: int, month: int, k: int)
    requires 0 <= month < 12 && 0 <= k < 7
    ensures Cell(MakeDate(year, month + 1, k + 1), true) == TrailCell(year, month, k)
  {
    MonthStepsInverse(JsYear(year), month);
  }

  /** `new Date(year, month + 1, 0)` is the last day of the month. */
  lemma LastDate(year: int, month: int)
    requires 0 <= month < 12
    ensures MakeDate(year, month + 1, 0) == CalDate(JsYear(year), month, DaysInMonth(JsYear(year), month))
  {
    MonthStepsInverse(JsYear(year), month);
  }

  /** The first loop of `getCalendarDays`: `new Date(year, month, -i)` for i from start - 1 down to 0. */
  method PushLeading(year: int, month: int, startDay: int) returns (days: seq<Cell>)
    requires 0 <= month < 12 && startDay == LeadingCount(JsYear(year), month)
    ensures days == seq(startDay, j requires 0 <= j < startDay => LeadCell(year, month, j))
  {
    ghost var lead := seq(startDay, j requires 0 <= j < startDay => LeadCell(year, month, j));
    days := [];
    var i := startDay - 1;
    while i >= 0
      invariant -1 <= i < startDay
      invariant days == lead[..startDay - 1 - i]
    {
      var c := Cell(MakeDate(year, month, -i), true);
      LeadDate(year, month, i);
      AppendNext(lead, startDay - 1 - i, c);
      days := days + [c];
      i := i - 1;
    }
  }

  /** The second loop: `new Date(year, month, i)` for every day i of the month. */
  method PushMonthDays(year: int, month: int, before: seq<Cell>, count: int) returns (days: seq<Cell>)
    requires 0 <= month < 12 && count == DaysInMonth(JsYear(year), month)
    ensures days == before + seq(count, j requires 0 <= j < count => MidCell(year, month, j))
  {
    ghost var mid := seq(count, j requires 0 <= j < count => MidCell(year, month, j));
    days := before;
    var i := 1;
    while i <= count
      invariant 1 <= i <= count + 1
      invariant days == before + mid[..i - 1]
    {
      var c := Cell(MakeDate(year, month, i), false);
      MidDate(year, month, i);
      AppendNextAfter(before, mid, i - 1, c);
      days := days + [c];
      i := i + 1;
    }
  }

  /** The third loop: days of the next month until the cell count is a multiple of seven. */
  method PushTrailing(year: int, month: int, before: seq<Cell>) returns (days: seq<Cell>)
    requires 0 <= month < 12
    requires |before| == LeadingCount(JsYear(year), month) + DaysInMonth(JsYear(year), month)
    ensures days == before + seq(TrailingCount(|before|), k requires 0 <= k < TrailingCount(|before|) => TrailCell(year, month, k))
  {
    var fill := |before|;
    ghost var trail := seq(TrailingCount(fill), k requires 0 <= k < TrailingCount(fill) => TrailCell(year, month, k));
    days := before;
    while |days| % 7 != 0
      invariant fill <= |days| <= fill + TrailingCount(fill)
      invariant days == before + trail[..|days| - fill]
      decreases fill + TrailingCount(fill) - |days|
    {
      var k := |days| - fill;
      var c := Cell(MakeDate(year, month + 1, k + 1), true);
      TrailDate(year, month, k);
      AppendNextAfter(before, trail, k, c);
      days := days + [c];
    }
    TrailingUnique(fill, |days| - fill);
  }

  /** `getCalendarDays`: three loops pushing cells built with `new Date`. */
  method GetCalendarDays(year: int, month: int) returns (days: seq<Cell>)
    requires 0 <= month < 12
    ensures days == CalendarGrid(year, month)
  {
    var first := MakeDate(year, month, 1);
    var last := MakeDate(year, month + 1, 0);
    LastDate(year, month);
    var startDay := (Weekday(first) + 6) % 7;
    assert startDay == LeadingCount(JsYear(year), month);
    days := PushLeading(year, month, startDay);
    days := PushMonthDays(year, month, days, last.day);
    days := PushTrailing(year, month, days);
    GridParts(year, month);
  }

  /** The grid covers whole weeks: between four and six rows of seven cells. */
  lemma GridShape(year: int, month: int)
    requires 0 <= month < 12
    ensures var g := CalendarGrid(year, month);
      |g| % 7 == 0 && 28 <= |g| <= 42
  {
    var y := JsYear(year);
    var s := LeadingCount(y, month) + DaysInMonth(y, month);
    assert |CalendarGrid(year, month)| == s + TrailingCount(s);
    assert s + TrailingCount(s) <= 42 by {
      if s > 35 { assert s <= 37; }
    }
  }

  /** Exactly the month's own days are inside cells, dated 1..last in order. */
  lemma GridInsideCells(year: int, month: int)
    requires 0 <= month < 12
    ensures var g := CalendarGrid(year, month);
      var y := JsYear(year);
      var start := LeadingCount(y, month);
      var last := DaysInMonth(y, month);
      && (forall j :: 0 <= j < |g| ==> (!g[j].outside <==> start <= j < start + last))
      && (forall j :: start <= j < start + last ==> g[j].date == CalDate(y, month, j - start + 1))
      && |g| - start - last < 7
  {
  }

  /** Successive cells are successive days: the grid is one unbroken run. */
  lemma {:induction false} GridIsConsecutive(year: int, month: int)
    requires 0 <= month < 12
    ensures var g := CalendarGrid(year, month);
      forall j :: 0 <= j < |g| ==> ValidDate(g[j].date) && Serial(g[j].date) == Serial(g[0].date) + j
  {
    var g := CalendarGrid(year, month);
    var y := JsYear(year);
    var start := LeadingCount(y, month);
    var last := DaysInMonth(y, month);
    var p := PrevMonthOf(y, month);
    var n := NextMonthOf(y, month);
    var lp := DaysInMonth(p.0, p.1);
    MonthStepsInverse(y, month);
    MonthBoundary(p.0, p.1);
    MonthBoundary(y, month);
    var base := Serial(CalDate(y, month, 1)) - start;
    forall j | 0 <= j < |g| ensures ValidDate(g[j].date) && Serial(g[j].date) == base + j {
      if j < start {
        assert g[j].date == CalDate(p.0, p.1, lp - start + 1 + j);
      } else if j < start + last {
        assert g[j].date == CalDate(y, month, j - start + 1);
      } else {
        assert g[j].date == CalDate(n.0, n.1, j - start - last + 1);
      }
    }
  }

  lemma ColumnShift(x: int, start: int, j: int)
    requires start == (x % 7 + 6) % 7
    ensures (x - start + j) % 7 == (j + 1) % 7
  {
    var q := x / 7;
    assert x == 7 * q + x % 7;
    if x % 7 == 0 {
      assert x - start + j == 7 * (q - 1) + (j + 1);
    } else {
      assert x - start + j == 7 * q + (j + 1);
    }
  }

  /** Cells whose day numbers run on from `x - start` take their weekdays from the column. */
  lemma ColumnsFromSerials(g: seq<Cell>, base: int, x: int, start: int)
    requires start == (x % 7 + 6) % 7
    requires base == x - start - 4 + Serial(CalDate(1970, 0, 1))
    requires forall j :: 0 <= j < |g| ==> ValidDate(g[j].date) && Serial(g[j].date) == base + j
    ensures forall j :: 0 <= j < |g| ==> ValidDate(g[j].date) && Weekday(g[j].date) == (j + 1) % 7
  {
    forall j | 0 <= j < |g| ensures ValidDate(g[j].date) && Weekday(g[j].date) == (j + 1) % 7 {
      ColumnShift(x, start, j);
    }
  }

  /**
   * Monday-first columns: the cell in column c (c = j mod 7) falls on
   * Monday for c = 0 through Sunday for c = 6.
   */
  lemma {:induction false} GridIsMondayFirst(year: int, month: int)
    requires 0 <= month < 12
    ensures var g := CalendarGrid(year, month);
      forall j :: 0 <= j < |g| ==> Weekday(g[j].date) == (j + 1) % 7
  {
    var y := JsYear(year);
    var start := LeadingCount(y, month);
    var first := CalDate(y, month, 1);
    var x := Serial(first) - Serial(CalDate(1970, 0, 1)) + 4;
    assert start == (x % 7 + 6) % 7;
    var g := CalendarGrid(year, month);
    GridIsConsecutive(year, month);
    GridInsideCells(year, month);
    assert g[start].date == first;
    ColumnsFromSerials(g, Serial(g[0].date), x, start);
  }

  // ---------------------------------------------------------------------
  // Year pages and the view machine
  // ---------------------------------------------------------------------

  /** The years page: twelve consecutive years from the multiple of 12 at or below `y`. */
  function YearsRange(y: int): (r: seq<int>)
    ensures |r| == 12 && r[0] % 12 == 0 && r[0] <= y < r[0] + 12
    ensures forall i :: 0 <= i < 12 ==> r[i] == r[0] + i
    ensures y in r
  {
    var base := (y / 12) * 12;
    var r := seq(12, i requires 0 <= i < 12 => base + i);
    assert r[y - base] == y;
    r
  }

  /** The views the popover can show. */
  datatype ViewMode = Days | Months | Years

  /** The header button: days → months → years → days. */
  function HeaderNext(v: ViewMode): (r: ViewMode)
    ensures r != v
    ensures v == Days ==> r == Months
    ensures v == Months ==> r == Years
    ensures v == Years ==> r == Days
  {
    match v
    case Days => Months
    case Months => Years
    case Years => Days
  }

  lemma HeaderCycles(v: ViewMode)
    ensures HeaderNext(HeaderNext(HeaderNext(v))) == v
    ensures HeaderNext(HeaderNext(v)) != v
  {
  }

  /** Popover placement at 280 x 360: above the trigger only when it fits there and not below. */
  function PopoverPosition(rect: Rect, innerWidth: real, innerHeight: real): (pos: (real, real))
    ensures var above := innerHeight - rect.Bottom() < 360.0 && rect.top > 360.0;
      pos.0 == (if above then rect.top - 364.0 else rect.Bottom() + 6.0)
    ensures pos.1 >= 8.0 && pos.1 <= Max(8.0, innerWidth - 296.0)
    ensures pos.1 <= rect.left || pos.1 == 8.0
    ensures rect.left <= innerWidth - 296.0 ==> pos.1 == Max(8.0, rect.left)
    ensures rect.left >= innerWidth - 296.0 ==> pos.1 == Max(8.0, innerWidth - 296.0)
  {
    var top := if innerHeight - rect.Bottom() < 360.0 && rect.top > 360.0 then rect.top - 360.0 - 4.0
               else rect.Bottom() + 6.0;
    (top, Clamp(rect.left, 8.0, innerWidth - 280.0 - 16.0))
  }

  /** The picker's view state and the values it has passed to `onChange`. */
  class CalendarPicker {
    var open: bool
    var viewYear: int
    var viewMonth: int
    var viewMode: ViewMode
    /** Arguments of each `onChange` call, oldest first (None stands for null). */
    var changes: seq<Option<CalDate>>

    ghost predicate Valid()
      reads this
    {
      0 <= viewMonth < 12
    }

    /** Initial view: the selected date's year (unless 0, which is falsy) and month, else today's. */
    constructor (selected: Option<CalDate>, todayYear: int, todayMonth: int)
      requires 0 <= todayMonth < 12
      requires selected.Some? ==> ValidDate(selected.value)
      ensures Valid() && !open && viewMode == Days && changes == []
      ensures viewYear == (if selected.Some? && selected.value.year != 0 then selected.value.year else todayYear)
      ensures viewMonth == (if selected.Some? then selected.value.month else todayMonth)
    {
      open := false;
      viewYear := if selected.Some? && selected.value.year != 0 then selected.value.year else todayYear;
      viewMonth := if selected.Some? then selected.value.month else todayMonth;
      viewMode := Days;
      changes := [];
    }

    /** The days shown for the current view. */
    method VisibleDays() returns (days: seq<Cell>)
      requires Valid()
      ensures days == CalendarGrid(viewYear, viewMonth)
    {
      days := GetCalendarDays(viewYear, viewMonth);
    }

    /** The trigger button: opening jumps to the selected date's month; the mode resets to days. */
    method TriggerClick(selected: Option<CalDate>)
      requires Valid() && (selected.Some? ==> ValidDate(selected.value))
      modifies this
      ensures Valid() && open == !old(open) && viewMode == Days && changes == old(changes)
      ensures !old(open) && selected.Some? ==>
                viewYear == selected.value.year && viewMonth == selected.value.month
      ensures old(open) || selected.None? ==>
                viewYear == old(viewYear) && viewMonth == old(viewMonth)
    {
      if !open && selected.Some? {
        viewYear := selected.value.year;
        viewMonth := selected.value.month;
      }
      viewMode := Days;
      open := !open;
    }

    method PrevMonth()
      requires Valid()
      modifies this
      ensures Valid() && (viewYear, viewMonth) == PrevMonthOf(old(viewYear), old(viewMonth))
      ensures open == old(open) && viewMode == old(viewMode) && changes == old(changes)
    {
      if viewMonth == 0 {
        viewMonth := 11;
        viewYear := viewYear - 1;
      } else {
        viewMonth := viewMonth - 1;
      }
    }

    method NextMonth()
      requires Valid()
      modifies this
      ensures Valid() && (viewYear, viewMonth) == NextMonthOf(old(viewYear), old(viewMonth))
      ensures open == old(open) && viewMode == old(viewMode) && changes == old(changes)
    {
      if viewMonth == 11 {
        viewMonth := 0;
        viewYear := viewYear + 1;
      } else {
        viewMonth := viewMonth + 1;
      }
    }

    /** The years view's arrows move a whole page of twelve years. */
    method ShiftYearPage(forward: bool)
      requires Valid()
      modifies this
      ensures Valid() && viewYear == old(viewYear) + (if forward then 12 else -12)
      ensures YearsRange(viewYear)[0] == YearsRange(old(viewYear))[0] + (if forward then 12 else -12)
      ensures viewMonth == old(viewMonth) && viewMode == old(viewMode) && open == old(open)
      ensures changes == old(changes)
    {
      viewYear := viewYear + (if forward then 12 else -12);
    }

    method HeaderClick()
      requires Valid()
      modifies this
      ensures Valid() && viewMode == HeaderNext(old(viewMode))
      ensures viewYear == old(viewYear) && viewMonth == old(viewMonth) && open == old(open)
      ensures changes == old(changes)
    {
      if viewMode == Days {
        viewMode := Months;
      } else if viewMode == Months {
        viewMode := Years;
      } else {
        viewMode := Days;
      }
    }

    /** Picking a year in the years grid shows that year's months. */
    method PickYear(y: int)
      requires Valid()
      modifies this
      ensures Valid() && viewYear == y && viewMode == Months
      ensures viewMonth == old(viewMonth) && open == old(open) && changes == old(changes)
    {
      viewYear := y;
      viewMode := Months;
    }

    /** Picking a month in the months grid shows its days. */
    method PickMonth(m: int)
      requires Valid() && 0 <= m < 12
      modifies this
      ensures Valid() && viewMonth == m && viewMode == Days
      ensures viewYear == old(viewYear) && open == old(open) && changes == old(changes)
    {
      viewMonth := m;
      viewMode := Days;
    }

    /** `handleSelect`: report the date, close, and return to the days view. */
    method Select(d: CalDate)
      requires Valid()
      modifies this
      ensures Valid() && changes == old(changes) + [Some(d)] && !open && viewMode == Days
      ensures viewYear == old(viewYear) && viewMonth == old(viewMonth)
    {
      changes := changes + [Some(d)];
      open := false;
      viewMode := Days;
    }

    /** `handleClear`: report null; the click does not reach the trigger, so nothing else changes. */
    method Clear()
      requires Valid()
      modifies this
      ensures Valid() && changes == old(changes) + [None]
      ensures open == old(open) && viewMode == old(viewMode)
      ensures viewYear == old(viewYear) && viewMonth == old(viewMonth)
    {
      changes := changes + [None];
    }

    /** A mousedown while open closes the popover unless it hit the trigger or the popover. */
    method MouseDown(inTrigger: bool, inPopover: bool)
      requires Valid()
      modifies this
      ensures Valid() && open == (old(open) && (inTrigger || inPopover))
      ensures viewMode == old(viewMode) && viewYear == old(viewYear) && viewMonth == old(viewMonth)
      ensures changes == old(changes)
    {
      if open && !inTrigger && !inPopover {
        open := false;
      }
    }
  }
}
