/**
 * One page of the calendar grid (PageGrid.tsx): the page's days cut into
 * week rows, the row holding the anchor date, and the vertical lift of the
 * whole page that keeps that row in view while the grid folds into a week
 * or unfolds into a month.
 */
module PageGrid {
  import opened CalendarTypes
  import opened CalendarUtils
  import opened CalendarConstants
  import opened Easing
  import opened RowAnimated

  function Min(a: int, b: int): int {
    if a <= b then a else b
  }

  /** `page.days` cut into consecutive slices of seven, the last one possibly shorter. */
  function Chunks(days: seq<Day>): seq<seq<Day>>
    decreases |days|
  {
    if |days| == 0 then []
    else
      var n := Min(7, |days|);
      [days[..n]] + Chunks(days[n..])
  }

  function Flatten(rows: seq<seq<Day>>): seq<Day> {
    if |rows| == 0 then [] else rows[0] + Flatten(rows[1..])
  }

  /**
   * The rows are `ceil(len / 7)` slices; row `k` is the days `7k` up to
   * `7k + 7` (or the end), and together they are the page's days again.
   */
  lemma ChunksShape(days: seq<Day>)
    ensures var rows := Chunks(days);
            && |rows| == CeilDiv7(|days|)
            && Flatten(rows) == days
            && (forall k :: 0 <= k < |rows| ==> rows[k] == days[7 * k .. Min(7 * k + 7, |days|)])
  {
    ChunksCount(days);
    ChunksFlatten(days);
    forall k | 0 <= k < |Chunks(days)|
      ensures Chunks(days)[k] == days[7 * k .. Min(7 * k + 7, |days|)]
    {
      ChunksRow(days, k);
    }
  }

  lemma {:induction false} ChunksCount(days: seq<Day>)
    ensures |Chunks(days)| == CeilDiv7(|days|)
    decreases |days|
  {
    if |days| > 0 {
      ChunksCount(days[Min(7, |days|)..]);
    }
  }

  lemma {:induction false} ChunksFlatten(days: seq<Day>)
    ensures Flatten(Chunks(days)) == days
    decreases |days|
  {
    if |days| > 0 {
      var n := Min(7, |days|);
      ChunksFlatten(days[n..]);
      assert Chunks(days)[1..] == Chunks(days[n..]);
    }
  }

  lemma {:induction false} ChunksRow(days: seq<Day>, k: int)
    requires 0 <= k < |Chunks(days)| && 7 * k < |days|
    ensures Chunks(days)[k] == days[7 * k .. Min(7 * k + 7, |days|)]
    decreases |days|
  {
    if k > 0 {
      var rest := days[Min(7, |days|)..];
      ChunksRow(rest, k - 1);
      assert Chunks(days)[k] == Chunks(rest)[k - 1];
      assert rest[7 * (k - 1) .. Min(7 * (k - 1) + 7, |rest|)] == days[7 * k .. Min(7 * k + 7, |days|)];
    }
  }

  /** The loop of the source: push `page.days.slice(i, i + 7)` for `i = 0, 7, 14, …`. */
  method ChunkRows(days: seq<Day>) returns (rows: seq<seq<Day>>)
    ensures rows == Chunks(days)
  {
    rows := [];
    var i := 0;
    while i < |days|
      invariant 0 <= i
      invariant rows + Chunks(days[Min(i, |days|)..]) == Chunks(days)
    {
      var n := Min(7, |days| - i);
      assert days[i..][..n] == days[i .. i + n];
      assert days[i..][n..] == days[i + n..];
      rows := rows + [days[i .. Min(i + 7, |days|)]];
      i := i + 7;
    }
  }

  /** `anchorForRow`: the week anchor while unfolding into a month, the selected date otherwise. */
  function AnchorForRow(phase: Option<Phase>, weekAnchor: Day, selectedDate: Option<Day>): (r: Option<Day>)
    ensures r.None? <==> phase != Some(ToMonth) && selectedDate.None?
  {
    if phase == Some(ToMonth) then Some(weekAnchor) else selectedDate
  }

  /** `week.some(d => isSameDay(d, anchor))`. */
  predicate RowHas(row: seq<Day>, anchor: Option<Day>) {
    exists i :: 0 <= i < |row| && IsSameDay(Some(row[i]), anchor)
  }

  /** `rows.findIndex(...)`: the first row holding the anchor date, or -1 when none does. */
  function SelectedRowIndex(rows: seq<seq<Day>>, anchor: Option<Day>): (idx: int)
    ensures -1 <= idx < |rows|
    ensures idx >= 0 ==> RowHas(rows[idx], anchor) && forall k :: 0 <= k < idx ==> !RowHas(rows[k], anchor)
    ensures idx == -1 <==> forall k :: 0 <= k < |rows| ==> !RowHas(rows[k], anchor)
    decreases |rows|
  {
    if |rows| == 0 then -1
    else if RowHas(rows[0], anchor) then 0
    else
      var r := SelectedRowIndex(rows[1..], anchor);
      assert forall k :: 1 <= k < |rows| ==> rows[k] == rows[1..][k - 1];
      if r < 0 then -1 else r + 1
  }

  /** With no anchor date no row is the anchor row. */
  lemma NoAnchorNoRow(rows: seq<seq<Day>>)
    ensures SelectedRowIndex(rows, None) == -1
  {
  }

  /** A row holds the anchor exactly when the anchor is a date of that row. */
  lemma RowHasIff(row: seq<Day>, anchor: Option<Day>)
    ensures RowHas(row, anchor) <==> anchor.Some? && anchor.value in row
  {
    if anchor.Some? && anchor.value in row {
      var i :| 0 <= i < |row| && row[i] == anchor.value;
      assert IsSameDay(Some(row[i]), anchor);
    }
  }

  /** `findIndex` returns the first row holding the anchor. */
  lemma FirstRowHolding(rows: seq<seq<Day>>, anchor: Option<Day>, k: int)
    requires 0 <= k < |rows| && RowHas(rows[k], anchor)
    requires forall j :: 0 <= j < k ==> !RowHas(rows[j], anchor)
    ensures SelectedRowIndex(rows, anchor) == k
  {
  }

  /** Row `k` of a page of consecutive days holds the days `7k` to `7k + 6` from the first. */
  lemma ConsecutiveRow(days: seq<Day>, k: int, d: Day)
    requires forall i :: 0 <= i < |days| ==> days[i] == days[0] + i
    requires 0 <= k < |Chunks(days)|
    ensures d in Chunks(days)[k] <==> 7 * k <= d - days[0] < 7 * k + 7 && d - days[0] < |days|
  {
    ChunksShape(days);
    var row := Chunks(days)[k];
    assert row == days[7 * k .. Min(7 * k + 7, |days|)];
    if 7 * k <= d - days[0] < 7 * k + 7 && d - days[0] < |days| {
      assert row[d - days[0] - 7 * k] == d;
    }
    if d in row {
      var i :| 0 <= i < |row| && row[i] == d;
      assert row[i] == days[7 * k + i];
    }
  }

  /**
   * On a page of consecutive days, the anchor row of a date on the page is
   * the row it falls in: its distance from the first day, in whole weeks.
   */
  lemma AnchorRowOfConsecutiveDays(days: seq<Day>, d: Day)
    requires forall i :: 0 <= i < |days| ==> days[i] == days[0] + i
    requires |days| > 0 && days[0] <= d < days[0] + |days|
    ensures SelectedRowIndex(Chunks(days), Some(d)) == (d - days[0]) / 7
  {
    ChunksShape(days);
    var rows := Chunks(days);
    var k := (d - days[0]) / 7;
    ConsecutiveRow(days, k, d);
    RowHasIff(rows[k], Some(d));
    forall j | 0 <= j < k
      ensures !RowHas(rows[j], Some(d))
    {
      ConsecutiveRow(days, j, d);
      RowHasIff(rows[j], Some(d));
    }
    FirstRowHolding(rows, Some(d), k);
  }

  /** Days that fill whole weeks make full rows only. */
  lemma WholeWeekRows(days: seq<Day>)
    requires |days| % 7 == 0
    ensures |Chunks(days)| == |days| / 7
    ensures forall k :: 0 <= k < |Chunks(days)| ==> |Chunks(days)[k]| == 7
  {
    ChunksShape(days);
  }

  /**
   * A month page has four to six full week rows, and a date of the month
   * sits in the row given by its position after the leading padding.
   */
  lemma MonthPageRows(year: int, monthIndex: int, d: Day)
    requires var ym := NormalizeYearMonth(year, monthIndex);
             FirstOfMonth(ym) <= d < FirstOfMonth(ym) + MonthLength(ym)
    ensures var ym := NormalizeYearMonth(year, monthIndex);
            var fw := Weekday(FirstOfMonth(ym));
            var rows := Chunks(MonthMatrix(year, monthIndex));
            && 4 <= |rows| <= 6
            && (forall k :: 0 <= k < |rows| ==> |rows[k]| == 7)
            && SelectedRowIndex(rows, Some(d)) == (fw + (d - FirstOfMonth(ym))) / 7
  {
    var ym := NormalizeYearMonth(year, monthIndex);
    var first := FirstOfMonth(ym);
    var fw := Weekday(first);
    var cells := MonthMatrix(year, monthIndex);
    MonthMatrixShape(year, monthIndex);
    MonthMatrixConsecutive(year, monthIndex);
    WholeWeekRows(cells);
    AnchorRowOfConsecutiveDays(cells, d);
  }

  /** The page lift for eased progress `eased`: the anchor row's height above the page top, scaled by the phase. */
  function LiftAt(selectedRowIndex: int, phase: Option<Phase>, cell: real, eased: real): (r: real)
    ensures (phase == Some(ToWeek) && eased == 0.0) || (phase == Some(ToMonth) && eased == 1.0) ==> r == 0.0
  {
    if selectedRowIndex < 0 then 0.0
    else
      var yTop := (selectedRowIndex as real) * RowHeight(cell);
      if phase == Some(ToWeek) then -yTop * eased
      else if phase == Some(ToMonth) then -yTop * (1.0 - eased)
      else 0.0
  }

  /** `contentLiftStyle`'s `translateY`: the progress (0 when absent) clamped to [0, 1], then eased. */
  function ContentLift(selectedRowIndex: int, phase: Option<Phase>, progress: Option<real>, cell: real, ease: real -> real): real {
    LiftAt(selectedRowIndex, phase, cell, ease(Clamp01(ProgressOrZero(progress))))
  }

  /**
   * Without an anchor row, or outside a transition, the page does not move;
   * otherwise it rises by at most the anchor row's height above the page
   * top, for any easing that keeps [0, 1].
   */
  lemma ContentLiftBounds(selectedRowIndex: int, phase: Option<Phase>, progress: Option<real>, cell: real, ease: real -> real)
    requires ValidCellSide(cell) && UnitEasing(ease)
    ensures var lift := ContentLift(selectedRowIndex, phase, progress, cell, ease);
            && (selectedRowIndex < 0 ==> lift == 0.0)
            && (phase != Some(ToWeek) && phase != Some(ToMonth) ==> lift == 0.0)
            && (selectedRowIndex >= 0 ==> -(selectedRowIndex as real) * RowHeight(cell) <= lift <= 0.0)
  {
    if selectedRowIndex >= 0 {
      var e := ease(Clamp01(ProgressOrZero(progress)));
      var yTop := (selectedRowIndex as real) * RowHeight(cell);
      assert yTop >= 0.0 by {
        ProductNonnegative(selectedRowIndex as real, RowHeight(cell));
      }
      ScaledWithin(yTop, e);
      ScaledWithin(yTop, 1.0 - e);
    }
  }

  /** Unfolding replays folding backwards: the lift at eased `e` of `toMonth` is the lift at `1 - e` of `toWeek`. */
  lemma LiftPhasesMirror(selectedRowIndex: int, cell: real, e: real)
    ensures LiftAt(selectedRowIndex, Some(ToMonth), cell, e) == LiftAt(selectedRowIndex, Some(ToWeek), cell, 1.0 - e)
  {
  }

  /**
   * The point of the lift: the anchor row itself never moves within the
   * page, so its place on screen is its row top plus the page lift.  At the
   * end of a fold it sits at the top of the grid, where the one-row week
   * grid shows it; at the end of an unfold it is back in its own place.
   */
  lemma AnchorRowLandsOnTop(selectedRowIndex: int, cell: real, ease: real -> real)
    requires selectedRowIndex >= 0
    requires ease(1.0) == 1.0
    ensures var top := RowTop(selectedRowIndex, cell);
            var still := RowMotion(selectedRowIndex, selectedRowIndex, Some(ToWeek), Some(1.0), ease);
            && still == RowStyle(1.0, 0.0)
            && top + ContentLift(selectedRowIndex, Some(ToWeek), Some(1.0), cell, ease) + still.translateY == 0.0
            && ContentLift(selectedRowIndex, Some(ToMonth), Some(1.0), cell, ease) == 0.0
  {
    RowTopIsYTop(selectedRowIndex, cell);
  }

  /** `selectedRowIndex` as PageGrid computes it: `findIndex` over the page's week rows of the `anchorForRow` date. */
  function HeldRow(days: seq<Day>, phase: Option<Phase>, weekAnchor: Day, selectedDate: Option<Day>): (r: int)
    ensures -1 <= r < CeilDiv7(|days|)
  {
    ChunksCount(days);
    SelectedRowIndex(Chunks(days), AnchorForRow(phase, weekAnchor, selectedDate))
  }

  /** The row of date `d` on a page of consecutive days, counted directly: whole weeks from the first day, or -1 off the page. */
  function RowOf(days: seq<Day>, d: Day): int {
    if |days| > 0 && days[0] <= d < days[0] + |days| then (d - days[0]) / 7 else -1
  }

  /** On a page of consecutive days, `findIndex` finds a date in the row `RowOf` counts, and nowhere when it is off the page. */
  lemma RowOfConsecutiveDays(days: seq<Day>, d: Day)
    requires forall i :: 0 <= i < |days| ==> days[i] == days[0] + i
    ensures SelectedRowIndex(Chunks(days), Some(d)) == RowOf(days, d)
  {
    if |days| > 0 && days[0] <= d < days[0] + |days| {
      AnchorRowOfConsecutiveDays(days, d);
    } else {
      var rows := Chunks(days);
      forall k | 0 <= k < |rows|
        ensures !RowHas(rows[k], Some(d))
      {
        ConsecutiveRow(days, k, d);
        RowHasIff(rows[k], Some(d));
      }
    }
  }

  /**
   * On a page of consecutive days (every month and week page is one), the
   * row PageGrid holds is the week anchor's row while unfolding into a month
   * and the selected date's row otherwise; with no date selected, outside
   * an unfold, no row is held.
   */
  lemma HeldRowRule(days: seq<Day>, phase: Option<Phase>, weekAnchor: Day, selectedDate: Option<Day>)
    requires forall i :: 0 <= i < |days| ==> days[i] == days[0] + i
    ensures var held := HeldRow(days, phase, weekAnchor, selectedDate);
            && (phase == Some(ToMonth) ==> held == RowOf(days, weekAnchor))
            && (phase != Some(ToMonth) && selectedDate.Some? ==> held == RowOf(days, selectedDate.value))
            && (phase != Some(ToMonth) && selectedDate.None? ==> held == -1)
  {
    if phase == Some(ToMonth) {
      RowOfConsecutiveDays(days, weekAnchor);
    } else if selectedDate.Some? {
      RowOfConsecutiveDays(days, selectedDate.value);
    }
  }

  /**
   * The whole chain of a page, from its days to what moves: while unfolding
   * into a month on a page that holds the week anchor, the anchor's row
   * stays still and opaque and the page lifts by at most that row's top;
   * outside an unfold with no date selected the page does not lift.
   */
  lemma HeldRowMotion(days: seq<Day>, phase: Option<Phase>, weekAnchor: Day, selectedDate: Option<Day>,
                      progress: Option<real>, cell: real, ease: real -> real)
    requires forall i :: 0 <= i < |days| ==> days[i] == days[0] + i
    requires ValidCellSide(cell) && UnitEasing(ease)
    ensures var held := HeldRow(days, phase, weekAnchor, selectedDate);
            var lift := ContentLift(held, phase, progress, cell, ease);
            && (phase == Some(ToMonth) && |days| > 0 && days[0] <= weekAnchor < days[0] + |days| ==>
                  && held == (weekAnchor - days[0]) / 7
                  && RowMotion(held, held, phase, progress, ease) == RowStyle(1.0, 0.0)
                  && -RowTop(held, cell) <= lift <= 0.0)
            && (phase != Some(ToMonth) && selectedDate.None? ==> lift == 0.0)
  {
    var held := HeldRow(days, phase, weekAnchor, selectedDate);
    HeldRowRule(days, phase, weekAnchor, selectedDate);
    ContentLiftBounds(held, phase, progress, cell, ease);
    RowMotionBounds(held, held, phase, progress, ease);
    if held >= 0 {
      RowTopIsYTop(held, cell);
    }
  }
}
