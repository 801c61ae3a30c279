/**
 * Date-grid math (calendarUtils.ts): the Sunday-first month matrix, the week
 * that starts on a Sunday, and the null-safe same-day test.
 *
 * The source works on JavaScript `Date` objects and leans on their
 * normalisation (`new Date(y, m, 0)` is the last day of the previous month,
 * `setDate` past the end of a month moves into the next one).  Here a date is
 * a day number; `MakeDate`, the model of `new Date(y, m, k)`, counts day `k`
 * from the first of the (carried) month, and `MakeDateNormalizes` shows that
 * this is the civil date `Gregorian.Normalize` carries day `k` to.
 */
module CalendarUtils {
  import opened CalendarTypes
  import opened Gregorian

  /** `date.getFullYear()` */
  function FullYear(d: Day): int {
    CivilOf(d).year
  }

  /** `date.getMonth()` (0-based) */
  function MonthOf(d: Day): int {
    CivilOf(d).month
  }

  /** `date.getDate()` (day of month, from 1) */
  function DateOf(d: Day): int {
    CivilOf(d).day
  }

  /** `date.getDay()`: 0 is Sunday. */
  function Weekday(d: Day): int {
    d % 7
  }

  predicate ValidYearMonth(ym: YearMonth) {
    0 <= ym.monthIndex < 12
  }

  /** Months since January of year 0: shifting a YearMonth by k months adds k here. */
  function MonthCount(ym: YearMonth): int {
    12 * ym.year + ym.monthIndex
  }

  /** A (year, month) pair with an out-of-range month carried into the year, as `Date` does. */
  function NormalizeYearMonth(year: int, monthIndex: int): (r: YearMonth)
    ensures ValidYearMonth(r)
    ensures MonthCount(r) == 12 * year + monthIndex
  {
    YearMonth(year + monthIndex / 12, monthIndex % 12)
  }

  /** The first day of a month. */
  function FirstOfMonth(ym: YearMonth): Day
    requires ValidYearMonth(ym)
  {
    DayNumber(Civil(ym.year, ym.monthIndex, 1))
  }

  function MonthLength(ym: YearMonth): int
    requires ValidYearMonth(ym)
  {
    DaysInMonth(ym.year, ym.monthIndex)
  }

  /**
   * `new Date(y, m, k)`: the month is carried into the year first, then day
   * `k` counts from the first of that month, running into neighbouring months
   * when it is below 1 or past the month's end.  `MakeDateNormalizes` shows
   * this is the civil date `Normalize` carries day `k` to.
   */
  function MakeDate(y: int, m: int, k: int): Day {
    FirstOfMonth(NormalizeYearMonth(y, m)) + k - 1
  }

  /** `new Date(y, m, k)` names the valid civil date obtained by carrying day `k` through the months. */
  lemma MakeDateNormalizes(y: int, m: int, k: int)
    ensures var ym := NormalizeYearMonth(y, m);
            var c := Normalize(ym.year, ym.monthIndex, k);
            ValidCivil(c) && MakeDate(y, m, k) == DayNumber(c)
  {
  }

  /** `getYearMonthFrom`: the year and 0-based month of a date. */
  function GetYearMonthFrom(d: Day): (r: YearMonth)
    ensures ValidYearMonth(r)
    ensures FirstOfMonth(r) <= d < FirstOfMonth(r) + MonthLength(r)
  {
    YearMonth(FullYear(d), MonthOf(d))
  }

  /** The month containing a date is unique: `GetYearMonthFrom` returns exactly it. */
  lemma GetYearMonthFromExact(ym: YearMonth, d: Day)
    requires ValidYearMonth(ym)
    requires FirstOfMonth(ym) <= d < FirstOfMonth(ym) + MonthLength(ym)
    ensures GetYearMonthFrom(d) == ym
  {
    var c := Civil(ym.year, ym.monthIndex, d - FirstOfMonth(ym) + 1);
    DayNumberInMonth(ym.year, ym.monthIndex, c.day);
    CivilOfDayNumber(c);
  }

  /** `new Date(y, m, 1)` is the first of the carried month. */
  lemma MakeDateFirst(y: int, m: int)
    ensures MakeDate(y, m, 1) == FirstOfMonth(NormalizeYearMonth(y, m))
  {
  }

  /** Adding months to a carried month is the same as carrying the sum. */
  lemma MakeDateFirstCarried(y: int, m: int, delta: int)
    ensures var n := NormalizeYearMonth(y, m);
            MakeDate(n.year, n.monthIndex + delta, 1) == FirstOfMonth(NormalizeYearMonth(y, m + delta))
  {
  }

  /** The first of a month is day 1 of that month. */
  lemma FirstOfMonthCivil(ym: YearMonth)
    requires ValidYearMonth(ym)
    ensures CivilOf(FirstOfMonth(ym)) == Civil(ym.year, ym.monthIndex, 1)
  {
    CivilOfInMonth(ym, 1);
  }

  /** `getYearMonthFrom` of the first of a month is that month. */
  lemma FirstOfMonthYearMonth(ym: YearMonth)
    requires ValidYearMonth(ym)
    ensures GetYearMonthFrom(FirstOfMonth(ym)) == ym
  {
    GetYearMonthFromExact(ym, FirstOfMonth(ym));
  }

  /** The civil date of a day in a given month. */
  lemma CivilOfInMonth(ym: YearMonth, k: int)
    requires ValidYearMonth(ym) && 1 <= k <= MonthLength(ym)
    ensures CivilOf(FirstOfMonth(ym) + k - 1) == Civil(ym.year, ym.monthIndex, k)
  {
    DayNumberInMonth(ym.year, ym.monthIndex, k);
    CivilOfDayNumber(Civil(ym.year, ym.monthIndex, k));
  }

  /**
   * `x.setDate(x.getDate() + k)` on a copy of `x`: `SetDateShifts` shows it
   * moves the date by exactly `k` days, whatever month boundaries it crosses.
   */
  function AddDays(d: Day, k: int): Day {
    d + k
  }

  lemma SetDateShifts(d: Day, k: int)
    ensures MakeDate(FullYear(d), MonthOf(d), DateOf(d) + k) == AddDays(d, k)
  {
    var c := CivilOf(d);
    assert NormalizeYearMonth(c.year, c.month) == YearMonth(c.year, c.month);
    DayNumberInMonth(c.year, c.month, c.day);
  }

  /** The month after a normalised month, as `new Date(y, m + 1, ...)` sees it. */
  lemma NormalizeNextMonth(year: int, monthIndex: int)
    ensures var ym := NormalizeYearMonth(year, monthIndex);
            var n := NextMonth(ym.year, ym.monthIndex);
            NormalizeYearMonth(year, monthIndex + 1) == YearMonth(n.0, n.1)
  {
    var a := NormalizeYearMonth(year, monthIndex);
    var b := NormalizeYearMonth(year, monthIndex + 1);
    var n := NextMonth(a.year, a.monthIndex);
    assert 12 * b.year + b.monthIndex == 12 * n.0 + n.1;
  }

  /** `new Date(y, m + 1, 0).getDate()` is the number of days of month (y, m). */
  lemma DayZeroIsMonthLength(year: int, monthIndex: int)
    ensures DateOf(MakeDate(year, monthIndex + 1, 0))
         == MonthLength(NormalizeYearMonth(year, monthIndex))
  {
    var ym := NormalizeYearMonth(year, monthIndex);
    NormalizeNextMonth(year, monthIndex);
    MonthStep(ym.year, ym.monthIndex);
    CivilOfInMonth(ym, MonthLength(ym));
  }

  /** `Math.ceil(x / 7)` for a non-negative integer `x`. */
  function CeilDiv7(x: int): (r: int)
    requires x >= 0
    ensures r >= 0
    ensures 7 * r >= x && 7 * (r - 1) < x
  {
    (x + 6) / 7
  }

  /**
   * The month grid the calendar shows for (year, monthIndex), month carried
   * into the year: whole weeks of consecutive days, starting on the Sunday on
   * or before the first of the month and just long enough to reach the
   * month's last day.
   */
  function MonthMatrix(year: int, monthIndex: int): seq<Day> {
    var ym := NormalizeYearMonth(year, monthIndex);
    var first := FirstOfMonth(ym);
    var fw := Weekday(first);
    seq(CeilDiv7(fw + MonthLength(ym)) * 7, i => first - fw + i)
  }

  /**
   * `buildMonthMatrix`: the first of the month through `new Date(y, m, 1)`,
   * the month length through `new Date(y, m + 1, 0).getDate()`, then one cell
   * per iteration holding `new Date(y, m, i - firstWeekday + 1)`.
   */
  method BuildMonthMatrix(year: int, monthIndex: int) returns (cells: seq<Day>)
    ensures cells == MonthMatrix(year, monthIndex)
  {
    var firstDayOfMonth := MakeDate(year, monthIndex, 1);
    var firstWeekday := Weekday(firstDayOfMonth);
    var daysInMonth := DaysInMonthOf(year, monthIndex);
    var totalCells := CeilDiv7(firstWeekday + daysInMonth) * 7;
    cells := [];
    var i := 0;
    while i < totalCells
      invariant 0 <= i <= totalCells
      invariant |cells| == i
      invariant forall k :: 0 <= k < i ==> cells[k] == firstDayOfMonth - firstWeekday + k
    {
      var dayNumber := i - firstWeekday + 1;
      cells := cells + [MakeDate(year, monthIndex, dayNumber)];
      i := i + 1;
    }
    assert forall k :: 0 <= k < totalCells ==> cells[k] == MonthMatrix(year, monthIndex)[k];
  }

  /** Line 19 of `buildMonthMatrix`: `new Date(year, monthIndex + 1, 0).getDate()`, the length of the month. */
  method DaysInMonthOf(year: int, monthIndex: int) returns (n: int)
    ensures n == MonthLength(NormalizeYearMonth(year, monthIndex))
  {
    n := DateOf(MakeDate(year, monthIndex + 1, 0));
    DayZeroIsMonthLength(year, monthIndex);
  }

  /**
   * The shape of the month matrix for any (year, monthIndex), month carried
   * into the year: whole weeks (4 to 6 of them), starting on a Sunday, the
   * first of the month at index `firstWeekday`, every day of the month
   * present (once: the cells increase strictly), and fewer than 7 days of
   * padding on either side.
   */
  lemma MonthMatrixShape(year: int, monthIndex: int)
    ensures var ym := NormalizeYearMonth(year, monthIndex);
            var first := FirstOfMonth(ym);
            var fw := Weekday(first);
            var cells := MonthMatrix(year, monthIndex);
            && |cells| % 7 == 0
            && 28 <= |cells| <= 42
            && cells[0] % 7 == 0
            && 0 <= fw < 7 && cells[fw] == first
            && fw + MonthLength(ym) <= |cells| < fw + MonthLength(ym) + 7
            && (forall d :: first <= d < first + MonthLength(ym) ==> d in cells)
            && (forall i, j :: 0 <= i < j < |cells| ==> cells[i] < cells[j])
  {
    var ym := NormalizeYearMonth(year, monthIndex);
    var first := FirstOfMonth(ym);
    var fw := Weekday(first);
    var cells := MonthMatrix(year, monthIndex);
    SundayOnOrBefore(first);
    forall d | first <= d < first + MonthLength(ym) ensures d in cells {
      assert cells[fw + (d - first)] == d;
    }
  }

  /** The matrix cells are consecutive days from the Sunday on or before the first of the month. */
  lemma MonthMatrixConsecutive(year: int, monthIndex: int)
    ensures var ym := NormalizeYearMonth(year, monthIndex);
            var first := FirstOfMonth(ym);
            var cells := MonthMatrix(year, monthIndex);
            forall i :: 0 <= i < |cells| ==> cells[i] == first - Weekday(first) + i
  {
  }

  /** Each matrix cell is in the month exactly when it lies between the leading and trailing padding. */
  lemma MonthMatrixCellMonth(year: int, monthIndex: int, i: int)
    requires 0 <= i < |MonthMatrix(year, monthIndex)|
    ensures var ym := NormalizeYearMonth(year, monthIndex);
            var fw := Weekday(FirstOfMonth(ym));
            var inMonth := GetYearMonthFrom(MonthMatrix(year, monthIndex)[i]) == ym;
            inMonth <==> fw <= i < fw + MonthLength(ym)
  {
    var ym := NormalizeYearMonth(year, monthIndex);
    MonthMatrixShape(year, monthIndex);
    var d := MonthMatrix(year, monthIndex)[i];
    if FirstOfMonth(ym) <= d < FirstOfMonth(ym) + MonthLength(ym) {
      GetYearMonthFromExact(ym, d);
    }
  }

  /** `d - getDay()` is the Sunday on or before `d`. */
  lemma SundayOnOrBefore(d: Day)
    ensures (d - Weekday(d)) % 7 == 0
    ensures d - Weekday(d) <= d < d - Weekday(d) + 7
  {
    var q := d / 7;
    assert d == 7 * q + d % 7;
    assert d - d % 7 == 7 * q;
  }

  /** `weekStartSunday(d)`: `setDate(getDate() - getDay())` on a copy of `d`, the Sunday on or before `d`. */
  function WeekStartSunday(d: Day): (s: Day)
    ensures Weekday(s) == 0
    ensures s <= d < s + 7
  {
    SundayOnOrBefore(d);
    AddDays(d, -Weekday(d))
  }

  /** The Sunday of a week is unique, so `WeekStartSunday` returns exactly it; in particular it is idempotent. */
  lemma WeekStartSundayExact(d: Day, s: Day)
    requires Weekday(s) == 0 && s <= d < s + 7
    ensures WeekStartSunday(d) == s
  {
    var k := s / 7;
    assert s == 7 * k;
    assert d == 7 * k + (d - s);
  }

  lemma WeekStartSundayIdempotent(d: Day)
    ensures WeekStartSunday(WeekStartSunday(d)) == WeekStartSunday(d)
  {
    WeekStartSundayExact(WeekStartSunday(d), WeekStartSunday(d));
  }

  /** `buildWeekDays(weekStart)`: seven dates, date `i` being `setDate(getDate() + i)` on a copy of the start. */
  function BuildWeekDays(weekStart: Day): (days: seq<Day>)
    ensures |days| == 7 && days[0] == weekStart
    ensures forall i :: 0 <= i < 6 ==> days[i + 1] == days[i] + 1
  {
    seq(7, i => AddDays(weekStart, i))
  }

  /** The week built from a Sunday runs Sunday to Saturday, and holds exactly the days of that week. */
  lemma {:induction false} WeekDaysFromSunday(weekStart: Day, d: Day)
    requires Weekday(weekStart) == 0
    ensures forall i :: 0 <= i < 7 ==> Weekday(BuildWeekDays(weekStart)[i]) == i
    ensures d in BuildWeekDays(weekStart) <==> WeekStartSunday(d) == weekStart
  {
    var days := BuildWeekDays(weekStart);
    var k := weekStart / 7;
    assert weekStart == 7 * k;
    forall i | 0 <= i < 7 ensures Weekday(days[i]) == i {
      assert days[i] == 7 * k + i;
    }
    if weekStart <= d < weekStart + 7 {
      assert days[d - weekStart] == d;
      WeekStartSundayExact(d, weekStart);
    }
  }

  /** `isSameDay(a, b)`: false when either is null, else year, month and day of month agree. */
  function IsSameDay(a: Option<Day>, b: Option<Day>): (r: bool)
    ensures r <==> a.Some? && b.Some? && a.value == b.value
  {
    if a.None? || b.None? then false
    else
      FullYear(a.value) == FullYear(b.value)
      && MonthOf(a.value) == MonthOf(b.value)
      && DateOf(a.value) == DateOf(b.value)
  }

  /** On present dates `IsSameDay` is reflexive and symmetric; with an absent date it never holds. */
  lemma IsSameDayProperties(a: Option<Day>, b: Option<Day>)
    ensures a.None? || b.None? ==> !IsSameDay(a, b)
    ensures a.Some? ==> IsSameDay(a, a)
    ensures IsSameDay(a, b) == IsSameDay(b, a)
  {
  }
}
