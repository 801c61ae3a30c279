/**
 * One row (one week) of a page grid during the month/week transition
 * (RowAnimated.tsx): its opacity and vertical offset from the phase and the
 * eased progress, and its stacking order.
 */
module RowAnimated {
  import opened CalendarTypes
  import opened CalendarConstants
  import opened Easing

  /** How far a fading row rises, in points, while the grid folds into a week. */
  const LIFT_PX: real := 10.0
  /** How far above its place an appearing row starts, in points, while the grid unfolds. */
  const DROP_PX: real := 10.0

  datatype RowStyle = RowStyle(opacity: real, translateY: real)

  /** The row holding the anchor date; no row is the anchor row when the index is -1. */
  predicate IsAnchorRow(rowIndex: int, selectedRowIndex: int) {
    rowIndex == selectedRowIndex && selectedRowIndex >= 0
  }

  /** The row's style for phase `phase` once the progress has been clamped and eased to `eased`. */
  function RowStyleAt(rowIndex: int, selectedRowIndex: int, phase: Option<Phase>, eased: real): RowStyle {
    var isSelected := IsAnchorRow(rowIndex, selectedRowIndex);
    if phase == Some(ToWeek) then
      if isSelected then RowStyle(1.0, 0.0)
      else RowStyle(1.0 - eased, -LIFT_PX * eased)
    else if phase == Some(ToMonth) then
      if isSelected then RowStyle(1.0, 0.0)
      else RowStyle(eased, -DROP_PX * (1.0 - eased))
    else
      RowStyle(1.0, 0.0)
  }

  /** The animated row style: the progress (0 when absent) is clamped to [0, 1], then eased. */
  function RowMotion(rowIndex: int, selectedRowIndex: int, phase: Option<Phase>, progress: Option<real>, ease: real -> real): RowStyle {
    RowStyleAt(rowIndex, selectedRowIndex, phase, ease(Clamp01(ProgressOrZero(progress))))
  }

  /** `zIndex`/`elevation`: the row at the anchor index is drawn above the others. */
  function StackOrder(rowIndex: int, selectedRowIndex: int): int {
    if rowIndex == selectedRowIndex then 3 else 1
  }

  /** Every row but the first keeps `ROW_GAP` above it. */
  function RowMarginTop(rowIndex: int): real {
    if rowIndex > 0 then ROW_GAP else 0.0
  }

  /**
   * The top of row `rowIndex` within the page: every row above it is one
   * cell high (`DayCell` is `CELL_SIDE` square) and every row keeps its own
   * `RowMarginTop` above it.
   */
  function RowTop(rowIndex: nat, cell: real): (r: real)
    ensures cell >= 0.0 ==> r >= (rowIndex as real) * ROW_GAP
  {
    if rowIndex == 0 then RowMarginTop(0)
    else RowTop(rowIndex - 1, cell) + cell + RowMarginTop(rowIndex)
  }

  /** The margins lay the rows out where the page lift expects them: row `k` starts `k` row heights below the page top (PageGrid.tsx's `yTop`). */
  lemma {:induction false} RowTopIsYTop(rowIndex: nat, cell: real)
    ensures RowTop(rowIndex, cell) == (rowIndex as real) * RowHeight(cell)
  {
    if rowIndex > 0 {
      RowTopIsYTop(rowIndex - 1, cell);
    }
  }

  /** Six rows laid out with those margins fill the month grid's height exactly. */
  lemma MonthRowsFillGrid(cell: real)
    requires ValidCellSide(cell)
    ensures RowTop(MONTH_ROWS - 1, cell) + cell == MonthGridH(cell)
  {
    RowTopIsYTop(MONTH_ROWS - 1, cell);
  }

  /**
   * The anchor row never moves or fades; in the idle phase (or with no phase)
   * no row does.  Every row keeps its opacity in [0, 1] and stays at most
   * `LIFT_PX` above its place, whatever the progress, for any easing that
   * keeps [0, 1].
   */
  lemma RowMotionBounds(rowIndex: int, selectedRowIndex: int, phase: Option<Phase>, progress: Option<real>, ease: real -> real)
    requires UnitEasing(ease)
    ensures var st := RowMotion(rowIndex, selectedRowIndex, phase, progress, ease);
            && 0.0 <= st.opacity <= 1.0
            && -LIFT_PX <= st.translateY <= 0.0
            && (IsAnchorRow(rowIndex, selectedRowIndex) ==> st == RowStyle(1.0, 0.0))
            && (phase != Some(ToWeek) && phase != Some(ToMonth) ==> st == RowStyle(1.0, 0.0))
  {
    var e := ease(Clamp01(ProgressOrZero(progress)));
    ScaledWithin(LIFT_PX, e);
    ScaledWithin(DROP_PX, 1.0 - e);
  }

  /**
   * Unfolding replays folding backwards: a row at eased progress `e` of
   * `toMonth` looks exactly as it does at `1 - e` of `toWeek`.
   */
  lemma RowPhasesMirror(rowIndex: int, selectedRowIndex: int, e: real)
    ensures RowStyleAt(rowIndex, selectedRowIndex, Some(ToMonth), e)
         == RowStyleAt(rowIndex, selectedRowIndex, Some(ToWeek), 1.0 - e)
  {
  }

  /**
   * With an easing that ends at 1, a completed fold hides every row but the
   * anchor row, and a completed unfold shows every row in its place.
   */
  lemma RowMotionAtEnd(rowIndex: int, selectedRowIndex: int, ease: real -> real)
    requires ease(1.0) == 1.0
    requires !IsAnchorRow(rowIndex, selectedRowIndex)
    ensures RowMotion(rowIndex, selectedRowIndex, Some(ToWeek), Some(1.0), ease) == RowStyle(0.0, -LIFT_PX)
    ensures RowMotion(rowIndex, selectedRowIndex, Some(ToMonth), Some(1.0), ease) == RowStyle(1.0, 0.0)
  {
  }

  /** Exactly the anchor row is raised; with anchor index -1 no row is. */
  lemma StackOrderRule(rowIndex: int, selectedRowIndex: int)
    requires rowIndex >= 0
    ensures StackOrder(rowIndex, selectedRowIndex) == 3 <==> IsAnchorRow(rowIndex, selectedRowIndex)
    ensures StackOrder(rowIndex, selectedRowIndex) == 1 <==> !IsAnchorRow(rowIndex, selectedRowIndex)
  {
  }
}
