/**
 * The proleptic Gregorian calendar at day granularity, standing in for the
 * JavaScript `Date` object the calendar code is written against.
 *
 * A date is a day number: day 0 is Sunday 0000-01-02, so the weekday of day
 * `n` (0 = Sunday, as `Date.prototype.getDay` counts) is `n % 7`.  A civil
 * date is (year, 0-based month, day of month).  `DayNumber` maps a civil date
 * to its day number; `Normalize` is the carry a `Date` performs when it is
 * given a day of month outside the month (day 0 is the last day of the
 * previous month, day 32 of January is the 1st of February, ...); `CivilOf`
 * inverts `DayNumber`.
 */
module Gregorian {

  /** Day 0 is 0000-01-02 (a Sunday); 0000-01-01 is day -1. */
  const EPOCH_OFFSET: int := 1

  predicate IsLeapYear(y: int) {
    y % 4 == 0 && (y % 100 != 0 || y % 400 == 0)
  }

  function DaysInYear(y: int): int {
    if IsLeapYear(y) then 366 else 365
  }

  /** Number of days of the 0-based month `m` of year `y`. */
  function DaysInMonth(y: int, m: int): (n: int)
    requires 0 <= m < 12
    ensures 28 <= n <= 31
    ensures n == 29 <==> m == 1 && IsLeapYear(y)
  {
    if m == 1 then (if IsLeapYear(y) then 29 else 28)
    else if m == 3 || m == 5 || m == 8 || m == 10 then 30
    else 31
  }

  /** Days of year `y` that come before the first of month `m`. */
  function DaysBeforeMonth(y: int, m: int): (n: int)
    requires 0 <= m <= 12
    ensures 28 * m <= n <= 31 * m
  {
    if m == 0 then 0 else DaysBeforeMonth(y, m - 1) + DaysInMonth(y, m - 1)
  }

  /** Days from 0000-01-01 to the first of January of year `y` (negative before year 0). */
  function DaysBeforeYear(y: int): int
    decreases if y < 0 then -y else y
  {
    if y == 0 then 0
    else if y > 0 then DaysBeforeYear(y - 1) + DaysInYear(y - 1)
    else DaysBeforeYear(y + 1) - DaysInYear(y)
  }

  datatype Civil = Civil(year: int, month: int, day: int)

  predicate ValidCivil(c: Civil) {
    0 <= c.month < 12 && 1 <= c.day <= DaysInMonth(c.year, c.month)
  }

  function DayNumber(c: Civil): int
    requires 0 <= c.month < 12
  {
    DaysBeforeYear(c.year) + DaysBeforeMonth(c.year, c.month) + c.day - 1 - EPOCH_OFFSET
  }

  /** The month after (y, m), with year carry. */
  function NextMonth(y: int, m: int): (r: (int, int))
    requires 0 <= m < 12
    ensures 0 <= r.1 < 12
    ensures 12 * r.0 + r.1 == 12 * y + m + 1
  {
    if m == 11 then (y + 1, 0) else (y, m + 1)
  }

  /** The month before (y, m), with year borrow. */
  function PrevMonth(y: int, m: int): (r: (int, int))
    requires 0 <= m < 12
    ensures 0 <= r.1 < 12
    ensures 12 * r.0 + r.1 == 12 * y + m - 1
  {
    if m == 0 then (y - 1, 11) else (y, m - 1)
  }

  lemma DaysBeforeMonthYear(y: int)
    ensures DaysBeforeMonth(y, 12) == DaysInYear(y)
  {
    var feb := DaysInMonth(y, 1);
    assert DaysBeforeMonth(y, 2) == 31 + feb;
    assert DaysBeforeMonth(y, 4) == 31 + feb + 31 + 30;
    assert DaysBeforeMonth(y, 6) == 31 + feb + 31 + 30 + 31 + 30;
    assert DaysBeforeMonth(y, 8) == 31 + feb + 31 + 30 + 31 + 30 + 31 + 31;
    assert DaysBeforeMonth(y, 10) == 31 + feb + 31 + 30 + 31 + 30 + 31 + 31 + 30 + 31;
  }

  /** A year has 365 days, one more when it is a leap year. */
  lemma YearStep(y: int)
    ensures DaysBeforeYear(y + 1) == DaysBeforeYear(y) + DaysInYear(y)
  {
  }

  /** The usual closed form: 365 days a year plus one for each leap year before it (year 0 is a leap year). */
  function ClosedForm(y: int): int {
    365 * y + (y + 3) / 4 - (y + 99) / 100 + (y + 399) / 400
  }

  lemma ClosedFormStep(y: int)
    ensures ClosedForm(y + 1) == ClosedForm(y) + DaysInYear(y)
  {
    StepOfQuotient(y, 4);
    StepOfQuotient(y, 100);
    StepOfQuotient(y, 400);
    LeapCount(y);
  }

  lemma {:induction false} DaysBeforeYearClosedForm(y: int)
    ensures DaysBeforeYear(y) == ClosedForm(y)
    decreases if y < 0 then -y else y
  {
    if y > 0 {
      DaysBeforeYearClosedForm(y - 1);
      ClosedFormStep(y - 1);
    } else if y < 0 {
      DaysBeforeYearClosedForm(y + 1);
      ClosedFormStep(y);
    }
  }

  /** The leap day as the three divisibility tests of the closed form. */
  lemma LeapCount(y: int)
    ensures DaysInYear(y) - 365
         == (if y % 4 == 0 then 1 else 0) - (if y % 100 == 0 then 1 else 0) + (if y % 400 == 0 then 1 else 0)
  {
    if y % 100 == 0 {
      var q := y / 100;
      assert y == 4 * (25 * q);
    }
    if y % 400 == 0 {
      var q := y / 400;
      assert y == 100 * (4 * q);
    }
  }

  /** Adding one to `y` raises `(y + k - 1) / k` exactly when `y` is a multiple of `k`. */
  lemma StepOfQuotient(y: int, k: int)
    requires k == 4 || k == 100 || k == 400
    ensures (y + k) / k == (y + k - 1) / k + (if y % k == 0 then 1 else 0)
  {
    var q, r := y / k, y % k;
    assert y == k * q + r && 0 <= r < k;
    assert (y + k) / k == q + 1 by {
      assert y + k == k * (q + 1) + r;
    }
    if r == 0 {
      assert y + k - 1 == k * q + (k - 1);
    } else {
      assert y + k - 1 == k * (q + 1) + (r - 1);
    }
  }

  /** The first of the next month is `DaysInMonth` days after the first of this one. */
  lemma MonthStep(y: int, m: int)
    requires 0 <= m < 12
    ensures DayNumber(Civil(NextMonth(y, m).0, NextMonth(y, m).1, 1))
         == DayNumber(Civil(y, m, 1)) + DaysInMonth(y, m)
  {
    if m == 11 {
      YearStep(y);
      DaysBeforeMonthYear(y);
    }
  }

  /** The first of this month is `DaysInMonth` days after the first of the previous one. */
  lemma PrevMonthStep(y: int, m: int)
    requires 0 <= m < 12
    ensures DayNumber(Civil(y, m, 1))
         == DayNumber(Civil(PrevMonth(y, m).0, PrevMonth(y, m).1, 1)) + DaysInMonth(PrevMonth(y, m).0, PrevMonth(y, m).1)
  {
    var p := PrevMonth(y, m);
    MonthStep(p.0, p.1);
    assert NextMonth(p.0, p.1) == (y, m);
  }

  /**
   * JavaScript `Date` normalisation of a day of month: day `k` of month (y, m),
   * for any integer `k`, is carried backwards or forwards through the
   * neighbouring months until it names a real day.
   */
  function Normalize(y: int, m: int, k: int): (c: Civil)
    requires 0 <= m < 12
    ensures ValidCivil(c)
    ensures DayNumber(c) == DayNumber(Civil(y, m, 1)) + k - 1
    decreases if k < 1 then 1 - k else 0, k
  {
    if k < 1 then
      var p := PrevMonth(y, m);
      PrevMonthStep(y, m);
      Normalize(p.0, p.1, k + DaysInMonth(p.0, p.1))
    else if k > DaysInMonth(y, m) then
      var n := NextMonth(y, m);
      MonthStep(y, m);
      Normalize(n.0, n.1, k - DaysInMonth(y, m))
    else
      Civil(y, m, k)
  }

  /** The civil date of day number `n`. */
  function CivilOf(n: int): (c: Civil)
    ensures ValidCivil(c)
    ensures DayNumber(c) == n
  {
    Normalize(0, 0, n + 1 + EPOCH_OFFSET)
  }

  lemma {:induction false} DaysBeforeMonthIncreasing(y: int, a: int, b: int)
    requires 0 <= a < b <= 12
    ensures DaysBeforeMonth(y, a) + DaysInMonth(y, a) <= DaysBeforeMonth(y, b)
    decreases b - a
  {
    if a + 1 < b {
      DaysBeforeMonthIncreasing(y, a + 1, b);
    }
  }

  lemma {:induction false} DaysBeforeYearIncreasing(a: int, b: int)
    requires a < b
    ensures DaysBeforeYear(a) + DaysInYear(a) <= DaysBeforeYear(b)
    decreases b - a
  {
    YearStep(a);
    if a + 1 < b {
      DaysBeforeYearIncreasing(a + 1, b);
      YearStep(a + 1);
    }
  }

  /** A valid civil date lies inside its own year. */
  lemma DayNumberInYear(c: Civil)
    requires ValidCivil(c)
    ensures DaysBeforeYear(c.year) - EPOCH_OFFSET <= DayNumber(c)
    ensures DayNumber(c) < DaysBeforeYear(c.year) + DaysInYear(c.year) - EPOCH_OFFSET
  {
    DaysBeforeMonthYear(c.year);
    if c.month < 11 {
      DaysBeforeMonthIncreasing(c.year, c.month, 12);
    }
  }

  /** Distinct valid civil dates have distinct day numbers. */
  lemma DayNumberInjective(c1: Civil, c2: Civil)
    requires ValidCivil(c1) && ValidCivil(c2)
    requires DayNumber(c1) == DayNumber(c2)
    ensures c1 == c2
  {
    DayNumberInYear(c1);
    DayNumberInYear(c2);
    if c1.year < c2.year {
      DaysBeforeYearIncreasing(c1.year, c2.year);
    } else if c2.year < c1.year {
      DaysBeforeYearIncreasing(c2.year, c1.year);
    }
    assert c1.year == c2.year;
    if c1.month < c2.month {
      DaysBeforeMonthIncreasing(c1.year, c1.month, c2.month);
    } else if c2.month < c1.month {
      DaysBeforeMonthIncreasing(c1.year, c2.month, c1.month);
    }
  }

  /** `CivilOf` inverts `DayNumber` on valid civil dates. */
  lemma CivilOfDayNumber(c: Civil)
    requires ValidCivil(c)
    ensures CivilOf(DayNumber(c)) == c
  {
    DayNumberInjective(CivilOf(DayNumber(c)), c);
  }

  /** Day numbers of one month are consecutive. */
  lemma DayNumberInMonth(y: int, m: int, d: int)
    requires 0 <= m < 12
    ensures DayNumber(Civil(y, m, d)) == DayNumber(Civil(y, m, 1)) + d - 1
  {
  }

  /**
   * The numbering agrees with the real calendar: 2000-01-01 was a Saturday,
   * 2024-02-25 a Sunday and 2024-03-15 a Friday.  (`y2000` and `y2024` are
   * parameters so that the recursive `DaysBeforeYear` is not unrolled two
   * thousand times on a literal.)
   */
  lemma KnownWeekdays(y2000: int, y2024: int)
    requires y2000 == 2000 && y2024 == 2024
    ensures DayNumber(Civil(y2000, 0, 1)) % 7 == 6
    ensures DayNumber(Civil(y2024, 1, 25)) % 7 == 0
    ensures DayNumber(Civil(y2024, 2, 15)) % 7 == 5
  {
    DaysBeforeYearClosedForm(y2000);
    assert DaysBeforeYear(y2000) == 730485;
    DaysBeforeYearClosedForm(y2024);
    assert DaysBeforeYear(y2024) == 739251;
    assert DaysBeforeMonth(y2024, 1) == 31;
    assert DaysBeforeMonth(y2024, 2) == 60;
  }
}
