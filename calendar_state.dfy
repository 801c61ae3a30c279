/**
 * The calendar's own React state, owned by CalendarContainer.tsx and written
 * through setters by the pager and the transition hooks: the view mode, the
 * displayed month, the selected date, the week anchor, and today.
 */
module CalendarState {
  import opened CalendarTypes
  import opened CalendarUtils

  datatype Calendar = Calendar(
    viewMode: ViewMode,
    ym: YearMonth,
    selectedDate: Option<Day>,
    weekAnchor: Day,
    today: Day)

  /** The state on mount: month mode on the month of today, today selected and anchoring the week. */
  function InitialCalendar(today: Day): (c: Calendar)
    ensures c.viewMode == Month && c.today == today
    ensures c.selectedDate == Some(today) && c.weekAnchor == today
    ensures ValidYearMonth(c.ym)
    ensures FirstOfMonth(c.ym) <= today < FirstOfMonth(c.ym) + MonthLength(c.ym)
  {
    Calendar(Month, GetYearMonthFrom(today), Some(today), today, today)
  }

  /** The `useState` cells themselves; the hooks update them in place. */
  class CalendarStore {
    var viewMode: ViewMode
    var ym: YearMonth
    var selectedDate: Option<Day>
    var weekAnchor: Day
    const today: Day

    function Model(): Calendar
      reads this
    {
      Calendar(viewMode, ym, selectedDate, weekAnchor, today)
    }

    constructor(today: Day)
      ensures Model() == InitialCalendar(today)
    {
      this.today := today;
      viewMode := Month;
      ym := GetYearMonthFrom(today);
      selectedDate := Some(today);
      weekAnchor := today;
    }
  }
}
