/** determine_weeks_in_month (backend/api/utils.py:32-47): the ISO 8601 week
    numbers (ISO 8601:2004 section 4.1.4, week dates) of the weeks that touch a
    calendar month, found by scanning the month's Monday-first grid.

    Dates are modelled by their proleptic Gregorian ordinal (day 1 is
    0001-01-01, as Python's `date.toordinal`); a date of the month is an
    ordinal between the month's first and last day, and the grid rows are the
    seven-day runs starting at the Monday on or before the first. */
module IsoWeeks {
  import opened Wrappers

  // ---------------------------------------------------------------------------
  // Gregorian calendar arithmetic
  // ---------------------------------------------------------------------------

  predicate IsLeap(y: int) {
    y % 4 == 0 && (y % 100 != 0 || y % 400 == 0)
  }

  function DaysInMonth(y: int, m: int): int
    requires 1 <= m <= 12
  {
    if m == 2 then (if IsLeap(y) then 29 else 28)
    else if m == 4 || m == 6 || m == 9 || m == 11 then 30
    else 31
  }

  /** Days of year `y` before the first of month `m`. */
  function DaysBeforeMonth(y: int, m: int): int
    requires 1 <= m <= 12
  {
    var common :=
      if m <= 6 then (if m == 1 then 0 else if m == 2 then 31 else if m == 3 then 59
                      else if m == 4 then 90 else if m == 5 then 120 else 151)
      else (if m == 7 then 181 else if m == 8 then 212 else if m == 9 then 243
            else if m == 10 then 273 else if m == 11 then 304 else 334);
    if m > 2 && IsLeap(y) then common + 1 else common
  }

  /** Days before January 1st of year `y`. */
  function DaysBeforeYear(y: int): int {
    var p := y - 1;
    p * 365 + p / 4 - p / 100 + p / 400
  }

  /** The ordinal of date y-m-d. */
  function Ordinal(y: int, m: int, d: int): int
    requires 1 <= m <= 12
  {
    DaysBeforeYear(y) + DaysBeforeMonth(y, m) + d
  }

  /** Day of the week of an ordinal, 0 for Monday up to 6 for Sunday. */
  function Weekday(o: int): int {
    (o + 6) % 7
  }

  /** The Monday that starts ISO week 1 of year `y`: the week holding the
      year's first Thursday. */
  function Week1Monday(y: int): int {
    MondayOfWeek1(Ordinal(y, 1, 1))
  }

  /** The Monday of ISO week 1 for a year starting on day `first`: the Monday
      on or before it when it is a Monday to Thursday, else the next one. */
  function MondayOfWeek1(first: int): int {
    var fw := Weekday(first);
    if fw > 3 then first - fw + 7 else first - fw
  }

  /** An ISO week date without its weekday. */
  datatype IsoDate = IsoDate(isoYear: int, isoWeek: int)

  /** `date.isocalendar()` for the date of year `y` whose ordinal is `o`. */
  function IsoCalendar(y: int, o: int): IsoDate {
    var week := (o - Week1Monday(y)) / 7;
    if week < 0 then IsoDate(y - 1, (o - Week1Monday(y - 1)) / 7 + 1)
    else if week >= 52 && o >= Week1Monday(y + 1) then IsoDate(y + 1, 1)
    else IsoDate(y, week + 1)
  }

  // ---------------------------------------------------------------------------
  // The month grid and the scan
  // ---------------------------------------------------------------------------

  function MonthStart(y: int, m: int): int
    requires 1 <= m <= 12
  {
    Ordinal(y, m, 1)
  }

  /** A date that falls in month `m` of year `y`. */
  predicate InMonth(y: int, m: int, o: int)
    requires 1 <= m <= 12
  {
    MonthStart(y, m) <= o < MonthStart(y, m) + DaysInMonth(y, m)
  }

  /** The Monday that starts the grid's first row. */
  function GridStart(y: int, m: int): int
    requires 1 <= m <= 12
  {
    MonthStart(y, m) - Weekday(MonthStart(y, m))
  }

  /** The number of Monday-first rows that cover the month. */
  function RowCount(y: int, m: int): int
    requires 1 <= m <= 12
  {
    (Weekday(MonthStart(y, m)) + DaysInMonth(y, m) + 6) / 7
  }

  /** The first date of the month among the row's days `j` to 6. */
  function FirstInRow(y: int, m: int, rowStart: int, j: nat): Option<int>
    requires 1 <= m <= 12
    decreases 7 - j
  {
    if j >= 7 then None
    else if InMonth(y, m, rowStart + j) then Some(rowStart + j)
    else FirstInRow(y, m, rowStart, j + 1)
  }

  /** The append step: the ISO week of date `o` joins the list when its ISO
      year is `y` and it is not there yet. */
  function AddWeek(y: int, acc: seq<int>, o: int): seq<int> {
    var iso := IsoCalendar(y, o);
    if iso.isoYear == y && iso.isoWeek !in acc then acc + [iso.isoWeek] else acc
  }

  /** One row of the scan: its first date of the month, if any, is looked at. */
  function RowStep(y: int, m: int, acc: seq<int>, rowStart: int): seq<int>
    requires 1 <= m <= 12
  {
    match FirstInRow(y, m, rowStart, 0)
    case None => acc
    case Some(o) => AddWeek(y, acc, o)
  }

  /** The scan from row `r` on. */
  function Scan(y: int, m: int, acc: seq<int>, r: nat): seq<int>
    requires 1 <= m <= 12
    decreases RowCount(y, m) - r
  {
    if r >= RowCount(y, m) then acc
    else Scan(y, m, RowStep(y, m, acc, GridStart(y, m) + 7 * r), r + 1)
  }

  /** One step of the scan. */
  lemma ScanNext(y: int, m: int, acc: seq<int>, r: nat)
    requires 1 <= m <= 12 && r < RowCount(y, m)
    ensures Scan(y, m, acc, r) == Scan(y, m, RowStep(y, m, acc, GridStart(y, m) + 7 * r), r + 1)
  {
  }

  function WeeksInMonth(y: int, m: int): seq<int>
    requires 1 <= m <= 12
  {
    Scan(y, m, [], 0)
  }

  /** Whether the Monday-first grid of month `m` of year `y` ends within year
      9999: the grid of December 9999 runs into January 10000, a date Python
      cannot build, so `monthdatescalendar` raises ValueError for it. */
  predicate GridFits(y: int, m: int) {
    y < 9999 || m < 12
  }

  /** determine_weeks_in_month (utils.py:32-47): the rows of the Monday-first
      grid in order. */
  method DetermineWeeksInMonth(year: int, month: int) returns (weeks: seq<int>)
    requires 1 <= year <= 9999 && 1 <= month <= 12 && GridFits(year, month)
    ensures weeks == WeeksInMonth(year, month)
  {
    weeks := [];
    var gridStart := GridStart(year, month);
    var rows := RowCount(year, month);
    var r := 0;
    while r < rows
      invariant 0 <= r <= rows
      invariant Scan(year, month, weeks, r) == WeeksInMonth(year, month)
    {
      weeks := ScanStep(year, month, weeks, r, gridStart);
      r := r + 1;
    }
  }

  /** One pass of the outer loop: the scan of the row starting at
      `gridStart + 7 * r`, after which the scan goes on from the next row. */
  method ScanStep(year: int, month: int, weeks: seq<int>, r: nat, gridStart: int) returns (weeks': seq<int>)
    requires 1 <= month <= 12 && r < RowCount(year, month) && gridStart == GridStart(year, month)
    ensures Scan(year, month, weeks', r + 1) == Scan(year, month, weeks, r)
  {
    var rowStart := gridStart + 7 * r;
    weeks' := ScanRow(year, month, weeks, rowStart);
    ScanAt(year, month, weeks, r, rowStart, weeks');
  }

  /** The scan from row `r` is the scan from row `r + 1` after the step of
      the row starting at `rowStart`. */
  lemma ScanAt(y: int, m: int, acc: seq<int>, r: nat, rowStart: int, acc': seq<int>)
    requires 1 <= m <= 12 && r < RowCount(y, m) && rowStart == GridStart(y, m) + 7 * r
    requires acc' == RowStep(y, m, acc, rowStart)
    ensures Scan(y, m, acc', r + 1) == Scan(y, m, acc, r)
  {
    ScanNext(y, m, acc, r);
  }

  /** The body of the outer loop (utils.py:41-45): the first date of the month
      in the row is looked up and the scan of the row stops there. */
  method ScanRow(year: int, month: int, weeks: seq<int>, rowStart: int) returns (weeks': seq<int>)
    requires 1 <= month <= 12
    ensures weeks' == RowStep(year, month, weeks, rowStart)
  {
    weeks' := weeks;
    var j := 0;
    while j < 7
      invariant 0 <= j <= 7
      invariant weeks' == weeks
      invariant FirstInRow(year, month, rowStart, j) == FirstInRow(year, month, rowStart, 0)
    {
      var day := rowStart + j;
      if InMonth(year, month, day) {
        var iso := IsoCalendar(year, day);
        if iso.isoYear == year && iso.isoWeek !in weeks' {
          weeks' := weeks' + [iso.isoWeek];
        }
        return;
      }
      j := j + 1;
    }
  }

  // ---------------------------------------------------------------------------
  // Calendar facts
  // ---------------------------------------------------------------------------

  /** A year has 365 days, 366 when it is a leap year. */
  lemma YearLength(y: int)
    ensures DaysBeforeYear(y + 1) - DaysBeforeYear(y) == if IsLeap(y) then 366 else 365
  {
    Div4Step(y);
    Div100Step(y);
    Div400Step(y);
  }

  /** Stepping from y - 1 to y passes one more multiple of 4 (of 100, of 400)
      exactly when it divides y. */
  lemma Div4Step(y: int)
    ensures y / 4 - (y - 1) / 4 == if y % 4 == 0 then 1 else 0
  {
  }

  lemma Div100Step(y: int)
    ensures y / 100 - (y - 1) / 100 == if y % 100 == 0 then 1 else 0
  {
  }

  lemma Div400Step(y: int)
    ensures y / 400 - (y - 1) / 400 == if y % 400 == 0 then 1 else 0
  {
  }

  /** ISO week 1 starts on a Monday at most three days from January 1st. */
  lemma MondayOfWeek1Bounds(first: int)
    ensures Weekday(MondayOfWeek1(first)) == 0
    ensures first - 3 <= MondayOfWeek1(first) <= first + 3
  {
  }

  /** Two Mondays of week 1 at least 365 days apart are 52 weeks apart or more. */
  lemma MondayOfWeek1Gap(f1: int, f2: int)
    requires f1 + 365 <= f2
    ensures MondayOfWeek1(f1) + 364 <= MondayOfWeek1(f2)
  {
    MondayOfWeek1Bounds(f1);
    MondayOfWeek1Bounds(f2);
  }

  /** Consecutive ISO years start at least 52 weeks apart. */
  lemma Week1MondayGap(y: int)
    ensures Week1Monday(y) + 364 <= Week1Monday(y + 1)
  {
    YearLength(y);
    MondayOfWeek1Gap(Ordinal(y, 1, 1), Ordinal(y + 1, 1, 1));
  }

  lemma {:induction false} Week1MondayMonotone(a: int, b: int)
    requires a <= b
    ensures Week1Monday(a) <= Week1Monday(b)
    decreases b - a
  {
    if a < b {
      Week1MondayGap(a);
      Week1MondayMonotone(a + 1, b);
    }
  }

  /** A date of the month lies in its calendar year. */
  lemma InMonthInYear(y: int, m: int, o: int)
    requires 1 <= m <= 12 && InMonth(y, m, o)
    ensures Ordinal(y, 1, 1) <= o < Ordinal(y + 1, 1, 1)
  {
    YearLength(y);
  }

  /** The ISO year holding date `o` of calendar year `y` is the one whose week 1
      Monday is the last not after `o`, and the week counts the whole weeks
      since that Monday. */
  lemma IsoBracket(y: int, o: int)
    requires Ordinal(y, 1, 1) <= o < Ordinal(y + 1, 1, 1)
    ensures var iso := IsoCalendar(y, o);
      Week1Monday(iso.isoYear) <= o < Week1Monday(iso.isoYear + 1)
      && iso.isoWeek == (o - Week1Monday(iso.isoYear)) / 7 + 1
  {
    var w1, w2 := Week1Monday(y), Week1Monday(y + 1);
    var week := (o - w1) / 7;
    if week < 0 {
      BracketPreviousYear(y, o);
      assert IsoCalendar(y, o) == IsoDate(y - 1, (o - Week1Monday(y - 1)) / 7 + 1);
    } else if week >= 52 && o >= w2 {
      BracketNextYear(y, o);
      assert IsoCalendar(y, o) == IsoDate(y + 1, 1);
    } else {
      Week1MondayGap(y);
      assert IsoCalendar(y, o) == IsoDate(y, week + 1);
    }
  }

  /** A date before week 1 of its year lies in the previous ISO year. */
  lemma BracketPreviousYear(y: int, o: int)
    requires Ordinal(y, 1, 1) <= o < Week1Monday(y)
    ensures Week1Monday(y - 1) <= o
  {
    YearLength(y - 1);
    MondayOfWeek1Bounds(Ordinal(y - 1, 1, 1));
  }

  /** A date of year `y` on or after week 1 of year `y + 1` is in that week. */
  lemma BracketNextYear(y: int, o: int)
    requires Week1Monday(y + 1) <= o < Ordinal(y + 1, 1, 1)
    ensures o < Week1Monday(y + 2)
    ensures (o - Week1Monday(y + 1)) / 7 == 0
  {
    MondayOfWeek1Bounds(Ordinal(y + 1, 1, 1));
    Week1MondayGap(y + 1);
  }

  /** A date of calendar year `y` has ISO year `y` exactly when it lies
      between week 1 of `y` and week 1 of `y + 1`. */
  lemma IsoYearIffBracket(y: int, o: int)
    requires Ordinal(y, 1, 1) <= o < Ordinal(y + 1, 1, 1)
    ensures IsoCalendar(y, o).isoYear == y <==> Week1Monday(y) <= o < Week1Monday(y + 1)
  {
    IsoBracket(y, o);
    var iy := IsoCalendar(y, o).isoYear;
    if Week1Monday(y) <= o < Week1Monday(y + 1) {
      IsoYearUnique(iy, y, o);
    }
  }

  /** At most one ISO year brackets a date. */
  lemma IsoYearUnique(a: int, b: int, o: int)
    requires Week1Monday(a) <= o < Week1Monday(a + 1)
    requires Week1Monday(b) <= o < Week1Monday(b + 1)
    ensures a == b
  {
    if a < b {
      Week1MondayMonotone(a + 1, b);
    } else if b < a {
      Week1MondayMonotone(b + 1, a);
    }
  }

  // ---------------------------------------------------------------------------
  // The grid
  // ---------------------------------------------------------------------------

  /** Dates with the same weekday are a whole number of weeks apart. */
  lemma SameWeekday(a: int, b: int)
    requires Weekday(a) == Weekday(b)
    ensures (a - b) % 7 == 0
  {
    assert a + 6 == 7 * ((a + 6) / 7) + Weekday(a);
    assert b + 6 == 7 * ((b + 6) / 7) + Weekday(b);
    assert a - b == 7 * ((a + 6) / 7 - (b + 6) / 7);
  }

  /** Stepping whole weeks and then fewer than seven days from a whole number
      of weeks adds the whole weeks to the quotient. */
  lemma WeeksAfter(a: int, r: int, e: int)
    requires a % 7 == 0 && 0 <= e <= 6
    ensures (a + 7 * r + e) / 7 == a / 7 + r
  {
    assert a == 7 * (a / 7);
    assert a + 7 * r + e == 7 * (a / 7 + r) + e;
  }

  /** The Monday on or before day `x`. */
  lemma MondayOnOrBefore(x: int)
    ensures Weekday(x - Weekday(x)) == 0
    ensures x - 6 <= x - Weekday(x) <= x
  {
  }

  /** The day the scan looks at in row `r`: the first of the month in row 0,
      the row's Monday in later rows. */
  function RowDay(y: int, m: int, r: nat): int
    requires 1 <= m <= 12
  {
    if r == 0 then MonthStart(y, m) else GridStart(y, m) + 7 * r
  }

  /** The grid rows cover the month, each row holds a date of the month, and
      the scan picks `RowDay` in each row. */
  lemma GridRow(y: int, m: int, r: nat)
    requires 1 <= m <= 12 && r < RowCount(y, m)
    ensures InMonth(y, m, RowDay(y, m, r))
    ensures GridStart(y, m) + 7 * r <= RowDay(y, m, r) <= GridStart(y, m) + 7 * r + 6
    ensures FirstInRow(y, m, GridStart(y, m) + 7 * r, 0) == Some(RowDay(y, m, r))
  {
    var ms := MonthStart(y, m);
    MondayOnOrBefore(ms);
    if r == 0 {
      FirstInRowReaches(y, m, GridStart(y, m), 0);
    } else {
      assert InMonth(y, m, GridStart(y, m) + 7 * r);
    }
  }

  /** In row 0 the days before the first of the month are skipped. */
  lemma {:induction false} FirstInRowReaches(y: int, m: int, rowStart: int, j: nat)
    requires 1 <= m <= 12
    requires rowStart + j <= MonthStart(y, m) <= rowStart + 6
    ensures FirstInRow(y, m, rowStart, j) == Some(MonthStart(y, m))
    decreases MonthStart(y, m) - rowStart - j
  {
    if rowStart + j < MonthStart(y, m) {
      FirstInRowReaches(y, m, rowStart, j + 1);
    }
  }

  /** Every date of the month lies in one of the rows, no earlier than that
      row's `RowDay`. */
  lemma RowOfDate(y: int, m: int, o: int)
    requires 1 <= m <= 12 && InMonth(y, m, o)
    ensures var r := (o - GridStart(y, m)) / 7;
      0 <= r < RowCount(y, m) && RowDay(y, m, r) <= o < GridStart(y, m) + 7 * r + 7
  {
    MondayOnOrBefore(MonthStart(y, m));
  }

  /** The number of whole weeks between week 1 of year `y` and the grid. */
  function GridWeeks(y: int, m: int): int
    requires 1 <= m <= 12
  {
    (GridStart(y, m) - Week1Monday(y)) / 7
  }

  /** A date in row `r` bracketed by ISO year `y` is in ISO week
      `GridWeeks(y, m) + r + 1`. */
  lemma WeekOfRow(y: int, m: int, r: int, o: int)
    requires 1 <= m <= 12
    requires GridStart(y, m) + 7 * r <= o <= GridStart(y, m) + 7 * r + 6
    ensures (o - Week1Monday(y)) / 7 + 1 == GridWeeks(y, m) + r + 1
  {
    var gs := GridStart(y, m);
    MondayOnOrBefore(MonthStart(y, m));
    MondayOfWeek1Bounds(Ordinal(y, 1, 1));
    SameWeekday(gs, Week1Monday(y));
    WeeksAfter(gs - Week1Monday(y), r, o - gs - 7 * r);
  }

  /** The ISO date of a date of the month whose ISO year is `y`, from its row. */
  lemma IsoWeekOfDate(y: int, m: int, r: nat, o: int)
    requires 1 <= m <= 12 && InMonth(y, m, o)
    requires GridStart(y, m) + 7 * r <= o <= GridStart(y, m) + 7 * r + 6
    requires IsoCalendar(y, o).isoYear == y
    ensures IsoCalendar(y, o).isoWeek == GridWeeks(y, m) + r + 1
  {
    InMonthInYear(y, m, o);
    IsoBracket(y, o);
    WeekOfRow(y, m, r, o);
  }

  /** Week 1 of the ISO year of a date starts no later than the date's row. */
  lemma Week1BeforeRow(y: int, m: int, o: int)
    requires 1 <= m <= 12 && InMonth(y, m, o) && IsoCalendar(y, o).isoYear == y
    ensures var r := (o - GridStart(y, m)) / 7;
      Week1Monday(y) <= GridStart(y, m) + 7 * r && o < Week1Monday(y + 1)
  {
    var gs := GridStart(y, m);
    var w1 := Week1Monday(y);
    InMonthInYear(y, m, o);
    IsoBracket(y, o);
    MondayOnOrBefore(MonthStart(y, m));
    MondayOfWeek1Bounds(Ordinal(y, 1, 1));
    SameWeekday(gs, w1);
    MondayNotAfterRow(gs, w1, o);
  }

  /** A Monday not after date `o` is not after the Monday starting `o`'s row
      of a Monday-first grid starting on `gs`. */
  lemma MondayNotAfterRow(gs: int, monday: int, o: int)
    requires (gs - monday) % 7 == 0 && monday <= o
    ensures monday <= gs + 7 * ((o - gs) / 7)
  {
    var q := (gs - monday) / 7;
    var r := (o - gs) / 7;
    assert gs - monday == 7 * q;
    assert o - gs == 7 * r + (o - gs) % 7;
  }

  /** The day the scan picks in the row of a date with ISO year `y` has ISO
      year `y` too. */
  lemma RowDayIsoYear(y: int, m: int, o: int)
    requires 1 <= m <= 12 && InMonth(y, m, o) && IsoCalendar(y, o).isoYear == y
    ensures var r := (o - GridStart(y, m)) / 7;
      0 <= r < RowCount(y, m) && IsoCalendar(y, RowDay(y, m, r)).isoYear == y
  {
    var r := (o - GridStart(y, m)) / 7;
    RowOfDate(y, m, o);
    GridRow(y, m, r);
    Week1BeforeRow(y, m, o);
    var c := RowDay(y, m, r);
    InMonthInYear(y, m, c);
    IsoYearIffBracket(y, c);
  }

  /** A date of the month with ISO year `y` and the day the scan picks in its
      row share the ISO date. */
  lemma RowDaySameWeek(y: int, m: int, o: int)
    requires 1 <= m <= 12 && InMonth(y, m, o) && IsoCalendar(y, o).isoYear == y
    ensures var r := (o - GridStart(y, m)) / 7;
      0 <= r < RowCount(y, m) && IsoCalendar(y, RowDay(y, m, r)) == IsoCalendar(y, o)
  {
    var r := (o - GridStart(y, m)) / 7;
    RowOfDate(y, m, o);
    GridRow(y, m, r);
    RowDayIsoYear(y, m, o);
    IsoWeekOfDate(y, m, r, o);
    IsoWeekOfDate(y, m, r, RowDay(y, m, r));
  }

  // ---------------------------------------------------------------------------
  // What the scan returns
  // ---------------------------------------------------------------------------

  predicate Ascending(s: seq<int>) {
    forall i, j :: 0 <= i < j < |s| ==> s[i] < s[j]
  }

  /** ISO week `w` of ISO year `y` holds a date of month `m` of year `y`. */
  ghost predicate Witnessed(y: int, m: int, w: int)
    requires 1 <= m <= 12
  {
    exists o :: InMonth(y, m, o) && IsoCalendar(y, o) == IsoDate(y, w)
  }

  /** Row `r` of the scan looks at `RowDay` and appends nothing but the week
      `GridWeeks(y, m) + r + 1`. */
  lemma RowStepAt(y: int, m: int, acc: seq<int>, r: nat)
    requires 1 <= m <= 12 && r < RowCount(y, m)
    ensures RowStep(y, m, acc, GridStart(y, m) + 7 * r) == AddWeek(y, acc, RowDay(y, m, r))
    ensures IsoCalendar(y, RowDay(y, m, r)).isoYear == y ==>
      IsoCalendar(y, RowDay(y, m, r)).isoWeek == GridWeeks(y, m) + r + 1
  {
    GridRow(y, m, r);
    if IsoCalendar(y, RowDay(y, m, r)).isoYear == y {
      IsoWeekOfDate(y, m, r, RowDay(y, m, r));
    }
  }

  /** Appending a week above every listed one keeps the list ascending. */
  lemma AscendingAppend(acc: seq<int>, bound: int, x: int)
    requires Ascending(acc) && bound < x
    requires forall k :: 0 <= k < |acc| ==> acc[k] <= bound
    ensures Ascending(acc + [x]) && x !in acc
    ensures forall k :: 0 <= k < |acc + [x]| ==> (acc + [x])[k] <= x
  {
  }

  /** One row keeps the list ascending and below the next row's week. */
  lemma RowStepAscending(y: int, m: int, acc: seq<int>, r: nat)
    requires 1 <= m <= 12 && r < RowCount(y, m) && Ascending(acc)
    requires forall k :: 0 <= k < |acc| ==> acc[k] <= GridWeeks(y, m) + r
    ensures var next := RowStep(y, m, acc, GridStart(y, m) + 7 * r);
      Ascending(next) && forall k :: 0 <= k < |next| ==> next[k] <= GridWeeks(y, m) + r + 1
  {
    RowStepAt(y, m, acc, r);
    var iso := IsoCalendar(y, RowDay(y, m, r));
    if iso.isoYear == y {
      AscendingAppend(acc, GridWeeks(y, m) + r, iso.isoWeek);
    }
  }

  /** Later rows append larger weeks, so the list stays ascending. */
  lemma {:induction false} ScanAscending(y: int, m: int, acc: seq<int>, r: nat)
    requires 1 <= m <= 12 && r <= RowCount(y, m) && Ascending(acc)
    requires forall k :: 0 <= k < |acc| ==> acc[k] <= GridWeeks(y, m) + r
    ensures Ascending(Scan(y, m, acc, r))
    decreases RowCount(y, m) - r
  {
    if r < RowCount(y, m) {
      RowStepAscending(y, m, acc, r);
      ScanAscending(y, m, RowStep(y, m, acc, GridStart(y, m) + 7 * r), r + 1);
    }
  }

  /** Only weeks witnessed by a date of the month are appended. */
  lemma {:induction false} ScanSound(y: int, m: int, acc: seq<int>, r: nat)
    requires 1 <= m <= 12
    requires forall k :: 0 <= k < |acc| ==> Witnessed(y, m, acc[k])
    ensures forall k :: 0 <= k < |Scan(y, m, acc, r)| ==> Witnessed(y, m, Scan(y, m, acc, r)[k])
    decreases RowCount(y, m) - r
  {
    if r < RowCount(y, m) {
      var next := RowStep(y, m, acc, GridStart(y, m) + 7 * r);
      RowStepSound(y, m, acc, r);
      ScanNext(y, m, acc, r);
      ScanSound(y, m, next, r + 1);
    }
  }

  /** A row appends only a week witnessed by its picked day. */
  lemma RowStepSound(y: int, m: int, acc: seq<int>, r: nat)
    requires 1 <= m <= 12 && r < RowCount(y, m)
    requires forall k :: 0 <= k < |acc| ==> Witnessed(y, m, acc[k])
    ensures var next := RowStep(y, m, acc, GridStart(y, m) + 7 * r);
      forall k :: 0 <= k < |next| ==> Witnessed(y, m, next[k])
  {
    GridRow(y, m, r);
    var c := RowDay(y, m, r);
    var iso := IsoCalendar(y, c);
    if iso.isoYear == y && iso.isoWeek !in acc {
      assert Witnessed(y, m, iso.isoWeek);
      assert RowStep(y, m, acc, GridStart(y, m) + 7 * r) == acc + [iso.isoWeek];
    }
  }


  /** The scan never drops a week. */
  lemma {:induction false} ScanKeeps(y: int, m: int, acc: seq<int>, r: nat, w: int)
    requires 1 <= m <= 12 && w in acc
    ensures w in Scan(y, m, acc, r)
    decreases RowCount(y, m) - r
  {
    if r < RowCount(y, m) {
      ScanKeeps(y, m, RowStep(y, m, acc, GridStart(y, m) + 7 * r), r + 1, w);
    }
  }

  /** A row whose picked day has ISO year `y` leaves that day's week listed. */
  lemma RowStepContains(y: int, m: int, acc: seq<int>, r: nat)
    requires 1 <= m <= 12 && r < RowCount(y, m)
    requires IsoCalendar(y, RowDay(y, m, r)).isoYear == y
    ensures IsoCalendar(y, RowDay(y, m, r)).isoWeek in RowStep(y, m, acc, GridStart(y, m) + 7 * r)
  {
    GridRow(y, m, r);
  }

  /** Every row from `r` on whose picked day has ISO year `y` contributes its week. */
  lemma {:induction false} ScanCovers(y: int, m: int, acc: seq<int>, r: nat, row: nat)
    requires 1 <= m <= 12 && r <= row < RowCount(y, m)
    requires IsoCalendar(y, RowDay(y, m, row)).isoYear == y
    ensures IsoCalendar(y, RowDay(y, m, row)).isoWeek in Scan(y, m, acc, r)
    decreases RowCount(y, m) - r
  {
    var next := RowStep(y, m, acc, GridStart(y, m) + 7 * r);
    ScanNext(y, m, acc, r);
    if r == row {
      RowStepContains(y, m, acc, r);
      ScanKeeps(y, m, next, r + 1, IsoCalendar(y, RowDay(y, m, row)).isoWeek);
    } else {
      ScanCovers(y, m, next, r + 1, row);
    }
  }

  /** The weeks come out in ascending order, hence without duplicates. */
  lemma WeeksInMonthAscending(y: int, m: int)
    requires 1 <= m <= 12
    ensures Ascending(WeeksInMonth(y, m))
  {
    ScanAscending(y, m, [], 0);
  }

  /** A week is listed exactly when it is a week of ISO year `y` holding a date
      of the month: weeks of the neighbouring ISO years are left out. */
  lemma WeeksInMonthExactly(y: int, m: int, w: int)
    requires 1 <= m <= 12
    ensures w in WeeksInMonth(y, m) <==> Witnessed(y, m, w)
  {
    if w in WeeksInMonth(y, m) {
      ScanSound(y, m, [], 0);
      var k :| 0 <= k < |WeeksInMonth(y, m)| && WeeksInMonth(y, m)[k] == w;
    }
    if Witnessed(y, m, w) {
      var o :| InMonth(y, m, o) && IsoCalendar(y, o) == IsoDate(y, w);
      RowDaySameWeek(y, m, o);
      ScanCovers(y, m, [], 0, (o - GridStart(y, m)) / 7);
    }
  }

  // ---------------------------------------------------------------------------
  // The result as a run of consecutive weeks
  // ---------------------------------------------------------------------------

  /** The integers `from` up to `to - 1`, ascending. */
  function Span(from: int, to: int): seq<int>
    decreases to - from
  {
    if from >= to then [] else [from] + Span(from + 1, to)
  }

  /** The day picked in row `r` falls within ISO year `y`. */
  predicate InBand(y: int, m: int, r: nat)
    requires 1 <= m <= 12
  {
    Week1Monday(y) <= RowDay(y, m, r) < Week1Monday(y + 1)
  }

  /** Later rows pick later days. */
  lemma RowDayMonotone(y: int, m: int, a: nat, b: nat)
    requires 1 <= m <= 12 && a <= b
    ensures RowDay(y, m, a) <= RowDay(y, m, b)
  {
    MondayOnOrBefore(MonthStart(y, m));
  }

  /** A row counts for ISO year `y` exactly when its picked day is in the band. */
  lemma RowInYear(y: int, m: int, r: nat)
    requires 1 <= m <= 12 && r < RowCount(y, m)
    ensures IsoCalendar(y, RowDay(y, m, r)).isoYear == y <==> InBand(y, m, r)
  {
    var c := RowDay(y, m, r);
    GridRow(y, m, r);
    InMonthInYear(y, m, c);
    IsoYearIffBracket(y, c);
  }

  /** An ascending list whose members are exactly `from` up to `to - 1` is
      that run. */
  lemma {:induction false} AscendingRun(s: seq<int>, from: int, to: int)
    requires Ascending(s)
    requires forall w :: w in s <==> from <= w < to
    ensures s == Span(from, to)
    decreases |s|
  {
    if s == [] {
      assert from !in s;
    } else {
      assert s[0] in s && from in s;
      var k :| 0 <= k < |s| && s[k] == from;
      assert s[0] <= s[k];
      var rest := s[1..];
      assert s == [from] + rest;
      forall w
        ensures w in rest <==> from + 1 <= w < to
      {
        RestMembers(s, from, to, w);
      }
      AscendingRun(rest, from + 1, to);
    }
  }

  /** The tail of such a list holds the rest of the run. */
  lemma RestMembers(s: seq<int>, from: int, to: int, w: int)
    requires Ascending(s) && |s| > 0 && s[0] == from
    requires forall v :: v in s <==> from <= v < to
    ensures w in s[1..] <==> from + 1 <= w < to
  {
    if w in s[1..] {
      var i :| 0 <= i < |s[1..]| && s[1..][i] == w;
      assert s[i + 1] == w && s[i + 1] in s && s[0] < s[i + 1];
    }
    if from + 1 <= w < to {
      assert w in s;
      var i :| 0 <= i < |s| && s[i] == w;
      assert s[1..][i - 1] == w;
    }
  }

  /** With the band of rows `lo` to `hi - 1`, the weeks witnessed by a date of
      the month are those of these rows. */
  lemma BandMembers(y: int, m: int, lo: nat, hi: nat, w: int)
    requires 1 <= m <= 12 && lo <= hi <= RowCount(y, m)
    requires forall row: nat :: row < RowCount(y, m) ==> (InBand(y, m, row) <==> lo <= row < hi)
    ensures Witnessed(y, m, w) <==> GridWeeks(y, m) + lo + 1 <= w < GridWeeks(y, m) + hi + 1
  {
    var g := GridWeeks(y, m);
    if Witnessed(y, m, w) {
      var o :| InMonth(y, m, o) && IsoCalendar(y, o) == IsoDate(y, w);
      var r := (o - GridStart(y, m)) / 7;
      RowDaySameWeek(y, m, o);
      RowStepAt(y, m, [], r);
      RowInYear(y, m, r);
    }
    if g + lo + 1 <= w < g + hi + 1 {
      var r: nat := w - g - 1;
      GridRow(y, m, r);
      RowStepAt(y, m, [], r);
      RowInYear(y, m, r);
      assert InMonth(y, m, RowDay(y, m, r)) && IsoCalendar(y, RowDay(y, m, r)) == IsoDate(y, w);
    }
  }

  /** Under the conditions of `WeeksInMonthBand`, row `row` is in the band
      exactly when it is one of the rows `lo` to `hi - 1`. */
  lemma BandRows(y: int, m: int, lo: nat, hi: nat, row: nat)
    requires 1 <= m <= 12 && lo <= hi <= RowCount(y, m) && row < RowCount(y, m)
    requires lo < hi ==> Week1Monday(y) <= RowDay(y, m, lo) && RowDay(y, m, hi - 1) < Week1Monday(y + 1)
    requires 0 < lo ==> RowDay(y, m, lo - 1) < Week1Monday(y)
    requires hi < RowCount(y, m) ==> Week1Monday(y + 1) <= RowDay(y, m, hi)
    ensures InBand(y, m, row) <==> lo <= row < hi
  {
    if row < lo {
      RowDayMonotone(y, m, row, lo - 1);
    } else if row < hi {
      RowDayMonotone(y, m, lo, row);
      RowDayMonotone(y, m, row, hi - 1);
    } else {
      RowDayMonotone(y, m, hi, row);
    }
  }

  /** The listed weeks are consecutive: those of the rows `lo` to `hi - 1`
      whose picked days fall within ISO year `y`. */
  lemma WeeksInMonthBand(y: int, m: int, lo: nat, hi: nat)
    requires 1 <= m <= 12 && lo <= hi <= RowCount(y, m)
    requires lo < hi ==> Week1Monday(y) <= RowDay(y, m, lo) && RowDay(y, m, hi - 1) < Week1Monday(y + 1)
    requires 0 < lo ==> RowDay(y, m, lo - 1) < Week1Monday(y)
    requires hi < RowCount(y, m) ==> Week1Monday(y + 1) <= RowDay(y, m, hi)
    ensures WeeksInMonth(y, m) == Span(GridWeeks(y, m) + lo + 1, GridWeeks(y, m) + hi + 1)
  {
    forall row: nat | row < RowCount(y, m)
      ensures InBand(y, m, row) <==> lo <= row < hi
    {
      BandRows(y, m, lo, hi, row);
    }
    forall w
      ensures w in WeeksInMonth(y, m) <==> GridWeeks(y, m) + lo + 1 <= w < GridWeeks(y, m) + hi + 1
    {
      WeeksInMonthExactly(y, m, w);
      BandMembers(y, m, lo, hi, w);
    }
    WeeksInMonthAscending(y, m);
    AscendingRun(WeeksInMonth(y, m), GridWeeks(y, m) + lo + 1, GridWeeks(y, m) + hi + 1);
  }

  /** Calendar values for the examples below: the first of each month and the
      Mondays of week 1 around it. */
  lemma CalendarValues()
    ensures MonthStart(2025, 3) == 739311 && MonthStart(2025, 12) == 739586
    ensures MonthStart(2021, 1) == 737791
    ensures Week1Monday(2021) == 737794 && Week1Monday(2022) == 738158
    ensures Week1Monday(2025) == 739250 && Week1Monday(2026) == 739614
  {
  }

  /** March 2025 spans ISO weeks 9 to 14. */
  lemma March2025(y: int, m: int)
    requires y == 2025 && m == 3
    ensures WeeksInMonth(y, m) == [9, 10, 11, 12, 13, 14]
  {
    CalendarValues();
    var g := GridWeeks(y, m);
    assert Weekday(739311) == 5;
    assert RowCount(y, m) == 6 && g == 8;
    WeeksInMonthBand(y, m, 0, 6);
    assert Span(g + 0 + 1, g + 6 + 1) == Span(9, 15) == [9, 10, 11, 12, 13, 14];
  }

  /** In December 2025 the row of the 29th is week 1 of ISO year 2026 and is
      left out. */
  lemma December2025(y: int, m: int)
    requires y == 2025 && m == 12
    ensures WeeksInMonth(y, m) == [49, 50, 51, 52]
  {
    CalendarValues();
    var g := GridWeeks(y, m);
    assert Weekday(739586) == 0;
    assert RowCount(y, m) == 5 && g == 48;
    WeeksInMonthBand(y, m, 0, 4);
    assert Span(g + 0 + 1, g + 4 + 1) == Span(49, 53) == [49, 50, 51, 52];
  }

  /** In January 2021 the row of the 1st is week 53 of ISO year 2020 and is
      left out. */
  lemma January2021(y: int, m: int)
    requires y == 2021 && m == 1
    ensures WeeksInMonth(y, m) == [1, 2, 3, 4]
  {
    CalendarValues();
    var g := GridWeeks(y, m);
    assert Weekday(737791) == 4;
    assert RowCount(y, m) == 5 && g == -1;
    WeeksInMonthBand(y, m, 1, 5);
    assert Span(g + 1 + 1, g + 5 + 1) == Span(1, 5) == [1, 2, 3, 4];
  }
}
