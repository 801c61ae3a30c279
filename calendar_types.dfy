/**
 * Value types shared by the calendar feature (calendarTypes.ts), plus the
 * option type the model uses for the source's nullable values.
 */
module CalendarTypes {

  /** A calendar date at day granularity: a day number (see module Gregorian). */
  type Day = int

  /** A value that may be absent: the source's `T | null` (or an optional prop). */
  datatype Option<T> = None | Some(value: T)

  datatype ViewMode = Month | Week

  /** A displayed month: the year and the 0-based month index. */
  datatype YearMonth = YearMonth(year: int, monthIndex: int)

  /** A page key, `m-<offset>` or `w-<offset>` in the source. */
  datatype PageKey = MonthKey(offset: int) | WeekKey(offset: int)

  /** One page of the horizontal pager: the days it shows and the month they belong to. */
  datatype PageData = PageData(key: PageKey, days: seq<Day>, monthIndex: int)

  /** The phase of the month/week transition. */
  datatype Phase = Idle | ToWeek | ToMonth

  /** A one-shot command to the pager view; `seqNo` tells repeated requests apart. */
  datatype ScrollRequest = ScrollRequest(index: int, animated: bool, seqNo: nat)
}
