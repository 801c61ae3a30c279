/**
 * Properties of the orchestrator: the mount state, date selection, which
 * events change the view mode and what the view-mode effect then does, the
 * title date, settling on a swiped page, and the toggle from week to month
 * with the effect as written and as corrected.
 */
module ContainerProperties {
  import opened CalendarTypes
  import opened CalendarUtils
  import opened CalendarConstants
  import opened CalendarState
  import opened InfinitePager
  import opened VerticalTransition
  import opened TransitionProperties
  import opened PagerProperties
  import opened CalendarContainer
  import opened Easing

  /**
   * On mount the calendar shows today's month in month mode with today
   * selected, the grid animates to the month height, both windows are at
   * their initial offsets and the first scroll request goes, without
   * animation, to the month window's center.
   */
  lemma MountState(today: Day, cell: real)
    requires ValidCellSide(cell)
    ensures var w := InitialWorld(today, cell);
            && ValidWorld(w, cell)
            && w.screen.cal == InitialCalendar(today)
            && w.screen.ctl.gridH == MonthGridH(cell)
            && w.screen.ctl.anim == Animating(MonthGridH(cell), NoCallback)
            && w.screen.ctl.phase == Idle && !w.screen.ctl.isDragPreview
            && w.pager.month == InitialPager().month && w.pager.week == InitialPager().week
            && w.pager.scrollReq == Some(ScrollRequest(MONTH_CHUNK, false, 0))
  {
    var cal := InitialCalendar(today);
    InitiallySound(cal, cell);
    EffectKeepsValid(World(Screen(cal, InitialController(cell)), InitialPager()), cell);
  }

  /**
   * Selecting a date always selects it; in week mode the date also becomes
   * the week anchor, in month mode the anchor stays; nothing else changes
   * and the view-mode effect does not run.
   */
  lemma SelectionRule(w: World, d: Day, cell: real)
    requires ValidCellSide(cell) && ValidWorld(w, cell)
    ensures var r := Step(w, SelectDate(d), cell);
            && r.screen.cal.selectedDate == Some(d)
            && (w.screen.cal.viewMode == Week ==> r.screen.cal.weekAnchor == d)
            && (w.screen.cal.viewMode == Month ==> r.screen.cal.weekAnchor == w.screen.cal.weekAnchor)
            && r.screen.cal.viewMode == w.screen.cal.viewMode && r.screen.cal.ym == w.screen.cal.ym
            && r.screen.ctl == w.screen.ctl && r.pager == w.pager
  {
  }

  /**
   * Only three events can change the view mode: the toggle from week (the
   * toggle from month only starts the animation whose completion switches),
   * a drag update (which starts the week-to-month preview) and the end of an
   * animation (whose callback commits a switch).  Releases, frames,
   * selection and paging never do.
   */
  lemma {:induction false} ModeChangesOnlyBy(w: World, e: Event, cell: real)
    requires ValidCellSide(cell) && ValidWorld(w, cell) && Enabled(w, e)
    ensures var h := Handled(w, e, cell);
            && (h.screen.cal.viewMode != w.screen.cal.viewMode ==> e.ToggleViewMode? || e.PanUpdate? || e.HeightDone?)
            && (e.ToggleViewMode? ==> (h.screen.cal.viewMode != w.screen.cal.viewMode <==> w.screen.cal.viewMode == Week))
  {
    var s := w.screen;
    match e
    case PanEnd(ty, vy) =>
      SupersededKeepsCalendar(WithProgress(s, 1.0));
      SupersededKeepsCalendar(WithProgress(s, 0.0));
    case ToggleViewMode =>
      if s.cal.viewMode == Month {
        ToggleFromMonth(s, cell);
      } else {
        ToggleFromWeek(s, cell, true);
      }
    case _ =>
  }

  /**
   * What the view-mode effect does: it never changes the calendar state or
   * the pager's windows, and always asks for a non-animated scroll to the
   * current mode's center page.  In week mode the grid animates to the week
   * height and the progress resets; in month mode it animates to the month
   * height unless the drag-preview flag is up, and then the corrected effect
   * leaves the screen as it is while the effect as written sets the height
   * to the week height, stopping whatever animation was running.
   */
  lemma EffectOutcome(w: World, cell: real)
    requires ValidCellSide(cell)
    ensures var r := ViewModeEffect(w, cell);
            var mode := w.screen.cal.viewMode;
            var c := w.screen.ctl;
            && r.screen.cal == w.screen.cal
            && r.pager.month == w.pager.month && r.pager.week == w.pager.week
            && r.pager.scrollReq == Some(ScrollRequest(WindowOf(w.pager, mode).center, false, w.pager.nextSeq))
            && (mode == Week ==> r.screen.ctl.anim == Animating(WeekGridH(cell), NoCallback) && r.screen.ctl.progress == 0.0)
            && (mode == Month && !c.isDragPreview ==> r.screen.ctl.anim == Animating(MonthGridH(cell), NoCallback))
            && (mode == Month && c.isDragPreview ==> r.screen == w.screen)
    ensures var r := ViewModeEffectAsWritten(w, cell);
            var mode := w.screen.cal.viewMode;
            && r.pager == ViewModeEffect(w, cell).pager
            && r.screen.cal == w.screen.cal
            && (!(mode == Month && w.screen.ctl.isDragPreview) ==> r == ViewModeEffect(w, cell))
            && (mode == Month && w.screen.ctl.isDragPreview ==>
                  r.screen.ctl.gridH == WeekGridH(cell) && r.screen.ctl.anim == AtRest)
  {
    SupersededKeepsCalendar(w.screen);
  }

  /** The title names the Sunday of the anchor's week, or the first day of the displayed month. */
  lemma TitleRule(c: Calendar)
    ensures c.viewMode == Week ==>
              var t := TitleDate(c);
              Weekday(t) == 0 && t <= c.weekAnchor < t + 7
    ensures c.viewMode == Month && ValidYearMonth(c.ym) ==>
              TitleDate(c) == FirstOfMonth(c.ym) && GetYearMonthFrom(TitleDate(c)) == c.ym
  {
    if c.viewMode == Month && ValidYearMonth(c.ym) {
      assert NormalizeYearMonth(c.ym.year, c.ym.monthIndex) == c.ym;
      GetYearMonthFromExact(c.ym, FirstOfMonth(c.ym));
    }
  }

  /** A momentum end goes to the pager and writes back the month and anchor it settles on; no effect runs. */
  lemma MomentumStep(w: World, i: int, cell: real)
    requires ValidCellSide(cell) && ValidWorld(w, cell) && Enabled(w, PageMomentumEnd(i))
    ensures var cal := w.screen.cal;
            var s := MomentumEnded(w.pager, cal.viewMode, cal.ym, cal.weekAnchor, i);
            Step(w, PageMomentumEnd(i), cell) == World(w.screen.(cal := cal.(ym := s.ym, weekAnchor := s.weekAnchor)), s.pager)
  {
  }

  /**
   * Settling on a page in month mode: the displayed month moves by the
   * page's offset from the old center, the page now at the center of the
   * window is exactly the page that was swiped to, and the transition state
   * and selection stay as they were.
   */
  lemma SettleOnMonthPage(w: World, i: int, cell: real)
    requires ValidCellSide(cell) && ValidWorld(w, cell)
    requires w.screen.cal.viewMode == Month && 0 <= i < |w.pager.month.offsets|
    ensures var r := Step(w, PageMomentumEnd(i), cell);
            var m, m' := w.pager.month, r.pager.month;
            && r.screen.ctl == w.screen.ctl
            && r.screen.cal == w.screen.cal.(ym := r.screen.cal.ym)
            && MonthCount(r.screen.cal.ym) == MonthCount(w.screen.cal.ym) + m.offsets[i] - m.offsets[m.center]
            && 0 <= m'.center < |m'.offsets|
            && MonthPages(m'.offsets, CenterValue(m'), r.screen.cal.ym)[m'.center]
                 == MonthPages(m.offsets, CenterValue(m), w.screen.cal.ym)[i]
  {
    var cal := w.screen.cal;
    var s := MomentumEnded(w.pager, Month, cal.ym, cal.weekAnchor, i);
    MomentumStep(w, i, cell);
    MomentumEndFollowsPage(w.pager, Month, cal.ym, cal.weekAnchor, i);
    SettlingKeepsMonthPages(w.pager, cal.ym, cal.weekAnchor, i, i, s.pager.month.center);
  }

  /**
   * Settling on a page in week mode: the anchor becomes the Sunday that
   * many weeks from the anchor's week, the page now at the center of the
   * window is exactly the page that was swiped to, and the transition state,
   * the displayed month and the selection stay as they were.
   */
  lemma SettleOnWeekPage(w: World, i: int, cell: real)
    requires ValidCellSide(cell) && ValidWorld(w, cell)
    requires w.screen.cal.viewMode == Week && 0 <= i < |w.pager.week.offsets|
    ensures var r := Step(w, PageMomentumEnd(i), cell);
            var k, k' := w.pager.week, r.pager.week;
            && r.screen.ctl == w.screen.ctl
            && r.screen.cal == w.screen.cal.(weekAnchor := r.screen.cal.weekAnchor)
            && (i != k.center ==>
                  r.screen.cal.weekAnchor == WeekStartSunday(w.screen.cal.weekAnchor) + 7 * (k.offsets[i] - k.offsets[k.center]))
            && 0 <= k'.center < |k'.offsets|
            && WeekPages(k'.offsets, CenterValue(k'), r.screen.cal.weekAnchor)[k'.center]
                 == WeekPages(k.offsets, CenterValue(k), w.screen.cal.weekAnchor)[i]
  {
    var cal := w.screen.cal;
    var s := MomentumEnded(w.pager, Week, cal.ym, cal.weekAnchor, i);
    MomentumStep(w, i, cell);
    MomentumEndFollowsPage(w.pager, Week, cal.ym, cal.weekAnchor, i);
    SettlingKeepsWeekPages(w.pager, cal.ym, cal.weekAnchor, i, i, s.pager.week.center);
  }

  /**
   * The toggle from a settled week view with the effect as written: the
   * mode becomes month, but the effect's direct height write stops the
   * toggle's animation to the month height, whose callback lowers the flag
   * and ends the phase.  The month view is left at the week height with no
   * animation running, so no frame or completion event can follow.
   */
  lemma ToggleToMonthAsWritten(w: World, cell: real)
    requires ValidCellSide(cell) && ValidWorld(w, cell)
    requires w.screen.cal.viewMode == Week && w.screen.ctl.anim.AtRest?
    ensures var r := StepAsWritten(w, ToggleViewMode, cell);
            && r.screen.cal.viewMode == Month
            && r.screen.ctl.gridH == WeekGridH(cell) < MonthGridH(cell)
            && r.screen.ctl.anim == AtRest
            && !Enabled(r, HeightDone)
            && !r.screen.ctl.isDragPreview && r.screen.ctl.phase == Idle
  {
    ToggleFromWeek(w.screen, cell, false);
  }

  /**
   * The same toggle with the corrected effect: the toggle's animation to the
   * month height keeps running with the preview flag up and the phase
   * `toMonth`; when it completes the grid is at the month height, still in
   * month mode, with the flag down and the phase idle.
   */
  lemma ToggleToMonthCorrected(w: World, cell: real)
    requires ValidCellSide(cell) && ValidWorld(w, cell)
    requires w.screen.cal.viewMode == Week && w.screen.ctl.anim.AtRest?
    ensures var r := Step(w, ToggleViewMode, cell);
            && r.screen.cal.viewMode == Month
            && r.screen.ctl.anim == Animating(MonthGridH(cell), AfterToggleToMonth)
            && r.screen.ctl.isDragPreview && r.screen.ctl.phase == ToMonth
            && Enabled(r, HeightDone)
            && var f := Step(r, HeightDone, cell);
               && f.screen.cal.viewMode == Month
               && f.screen.ctl.gridH == MonthGridH(cell) && f.screen.ctl.anim == AtRest
               && !f.screen.ctl.isDragPreview && f.screen.ctl.phase == Idle
  {
    ToggleFromWeek(w.screen, cell, true);
    StepKeepsValid(w, ToggleViewMode, cell);
  }

  /**
   * A drag down from a settled week view that passes the gate switches to
   * month mode with the preview flag up; the corrected effect leaves the
   * grid at the height the drag gave it, while the effect as written puts
   * it back to the week height until the next drag update.
   */
  lemma WeekDragPreview(w: World, cell: real, tx: real, ty: real)
    requires ValidCellSide(cell) && ValidWorld(w, cell)
    requires w.screen.cal.viewMode == Week && w.screen.ctl.anim.AtRest?
    requires w.screen.ctl.dragStartH == WeekGridH(cell) && !w.screen.ctl.previewStarted
    requires ToMonthGate(tx, ty)
    ensures var r := Step(w, PanUpdate(tx, ty), cell);
            var p := Clamp01(ty / DRAG_RANGE);
            && r.screen.cal.viewMode == Month
            && r.screen.ctl.gridH == Lerp(WeekGridH(cell), MonthGridH(cell), p)
            && r.screen.ctl.progress == p
            && r.screen.ctl.isDragPreview && r.screen.ctl.phase == ToMonth
            && r.screen.ctl.anim == AtRest
    ensures var r := StepAsWritten(w, PanUpdate(tx, ty), cell);
            && r.screen.cal.viewMode == Month
            && r.screen.ctl.gridH == WeekGridH(cell)
            && r.screen.ctl.isDragPreview && r.screen.ctl.phase == ToMonth
  {
    MonthGridHTaller(cell);
    ToMonthPreviewStarts(w.screen, cell, tx, ty);
  }
}
