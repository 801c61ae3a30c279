/**
 * Layout constants (calendarConstants.ts).  The cell side is computed from the
 * screen width, so the model keeps it symbolic: any positive real.
 */
module CalendarConstants {

  const ROW_GAP: real := 6.0
  const MONTH_ROWS: int := 6

  /** `CELL_SIDE`: whatever the screen gives, as long as it is positive. */
  predicate ValidCellSide(cell: real) {
    cell > 0.0
  }

  /** `WEEK_GRID_H`: one row of cells. */
  function WeekGridH(cell: real): real {
    cell
  }

  /** `MONTH_GRID_H`: six rows of cells and the five gaps between them; always taller than a week. */
  function MonthGridH(cell: real): (h: real)
    requires ValidCellSide(cell)
    ensures h > WeekGridH(cell)
  {
    cell * (MONTH_ROWS as real) + ROW_GAP * ((MONTH_ROWS - 1) as real)
  }

  /** The distance from the top of one row to the top of the next (PageGrid.tsx). */
  function RowHeight(cell: real): real {
    cell + ROW_GAP
  }
}
