/**
 * What the transition controller promises: heights and progress stay in
 * range, a drag does nothing until its gate opens, the commit decision,
 * what each completion leaves behind, and the inert drag that begins in the
 * middle of an animation.
 */
module TransitionProperties {
  import opened CalendarTypes
  import opened CalendarUtils
  import opened CalendarConstants
  import opened CalendarState
  import opened VerticalTransition
  import opened Easing

  /** A height `p` of the way between two heights lies between them. */
  lemma LerpBetween(a: real, b: real, p: real)
    requires 0.0 <= p <= 1.0
    ensures Between(Lerp(a, b, p), a, b)
  {
    if a <= b {
      LerpRisingLow(a, b, p);
      LerpRisingHigh(a, b, p);
    } else {
      LerpFallingHigh(a, b, p);
      LerpFallingLow(a, b, p);
    }
  }

  // Proof helpers, with no counterpart in the app: one bound of the
  // interpolation each, since the solver's nonlinear real arithmetic proves
  // each bound alone, not both in one query.

  /** Proof helper for `LerpBetween`: a rising interpolation starts no lower than `a`. */
  lemma LerpRisingLow(a: real, b: real, p: real)
    requires 0.0 <= p <= 1.0 && a <= b
    ensures a <= Lerp(a, b, p)
  {
    ScaledWithin(b - a, p);
  }

  /** Proof helper for `LerpBetween`: a rising interpolation ends no higher than `b`. */
  lemma LerpRisingHigh(a: real, b: real, p: real)
    requires 0.0 <= p <= 1.0 && a <= b
    ensures Lerp(a, b, p) <= b
  {
    ScaledWithin(b - a, p);
  }

  /** Proof helper for `LerpBetween`: a falling interpolation starts no higher than `a`. */
  lemma LerpFallingHigh(a: real, b: real, p: real)
    requires 0.0 <= p <= 1.0 && b <= a
    ensures Lerp(a, b, p) <= a
  {
    ScaledWithinNegative(b - a, p);
  }

  /** Proof helper for `LerpBetween`: a falling interpolation ends no lower than `b`. */
  lemma LerpFallingLow(a: real, b: real, p: real)
    requires 0.0 <= p <= 1.0 && b <= a
    ensures b <= Lerp(a, b, p)
  {
    ScaledWithinNegative(b - a, p);
  }

  /**
   * Stopping an animation never touches the calendar, the heights, the
   * progress or the preview: its callback, run unfinished, at most lowers
   * the drag-preview flag and returns the phase to idle.
   */
  lemma SupersededKeepsCalendar(s: Screen)
    ensures var r := Superseded(s);
            && r.cal == s.cal
            && r.ctl.anim == AtRest
            && r.ctl.gridH == s.ctl.gridH && r.ctl.dragStartH == s.ctl.dragStartH
            && r.ctl.progress == s.ctl.progress && r.ctl.previewStarted == s.ctl.previewStarted
            && (r.ctl.isDragPreview ==> s.ctl.isDragPreview)
            && (r.ctl.phase == s.ctl.phase || r.ctl.phase == Idle)
            && (s.ctl.anim.AtRest? ==> r == s)
  {
  }

  /** The hook starts sound. */
  lemma InitiallySound(cal: Calendar, cell: real)
    requires ValidCellSide(cell)
    ensures Sound(Screen(cal, InitialController(cell)), cell)
  {
  }

  lemma DragBeginKeepsSound(s: Screen, cell: real)
    requires ValidCellSide(cell) && Sound(s, cell)
    ensures var r := DragBegun(s);
            && Sound(r, cell)
            && r.ctl.dragStartH == s.ctl.gridH && !r.ctl.previewStarted
            && r.ctl.phase == Idle && r.ctl.progress == 0.0
            && r.cal == s.cal && r.ctl.gridH == s.ctl.gridH && r.ctl.anim == s.ctl.anim
  {
  }

  /**
   * During a drag from month or week height, once the preview has started,
   * the progress is the clamped share of the vertical travel and the height
   * is that share of the way from the start height to the other one, so it
   * stays between the week and the month height.
   */
  lemma DragUpdateKeepsSound(s: Screen, cell: real, tx: real, ty: real)
    requires ValidCellSide(cell) && Sound(s, cell)
    ensures var r := DragUpdated(s, cell, tx, ty);
            var month, week := MonthGridH(cell), WeekGridH(cell);
            && Sound(r, cell)
            && (r != s && s.ctl.dragStartH == month ==>
                  r.ctl.previewStarted && r.ctl.progress == Clamp01(-ty / DRAG_RANGE)
                  && r.ctl.gridH == Lerp(month, week, r.ctl.progress))
            && (r != s && s.ctl.dragStartH == week ==>
                  r.ctl.previewStarted && r.ctl.progress == Clamp01(ty / DRAG_RANGE)
                  && r.ctl.gridH == Lerp(week, month, r.ctl.progress))
  {
    var month, week := MonthGridH(cell), WeekGridH(cell);
    var c := s.ctl;
    if c.dragStartH == month && (c.previewStarted || ToWeekGate(tx, ty)) {
      var s1 := if c.previewStarted then s else s.(ctl := c.(previewStarted := true, phase := ToWeek));
      SupersededKeepsCalendar(s1);
      LerpBetween(month, week, Clamp01(-ty / DRAG_RANGE));
    } else if c.dragStartH == week && (c.previewStarted || ToMonthGate(tx, ty)) {
      var s1 := if c.previewStarted then s else ToMonthPreviewBegun(s.(ctl := c.(previewStarted := true)));
      SupersededKeepsCalendar(s1);
      LerpBetween(week, month, Clamp01(ty / DRAG_RANGE));
    }
  }

  /**
   * Before the preview starts, an update whose travel does not open the
   * gate of the drag's direction changes nothing; one that opens it starts
   * the preview.  Once started, the preview is never gated again.
   */
  lemma DragUpdateGate(s: Screen, cell: real, tx: real, ty: real)
    requires ValidCellSide(cell)
    ensures var r := DragUpdated(s, cell, tx, ty);
            var month, week := MonthGridH(cell), WeekGridH(cell);
            && (!s.ctl.previewStarted && s.ctl.dragStartH == month ==> (r == s <==> !ToWeekGate(tx, ty)))
            && (!s.ctl.previewStarted && s.ctl.dragStartH == week ==> (r == s <==> !ToMonthGate(tx, ty)))
            && (s.ctl.previewStarted ==> r.ctl.previewStarted)
            && (s.ctl.dragStartH != month && s.ctl.dragStartH != week ==> r == s)
  {
    var month, week := MonthGridH(cell), WeekGridH(cell);
    var c := s.ctl;
    var r := DragUpdated(s, cell, tx, ty);
    if c.dragStartH == month && (c.previewStarted || ToWeekGate(tx, ty)) {
      var s1 := if c.previewStarted then s else s.(ctl := c.(previewStarted := true, phase := ToWeek));
      SupersededKeepsCalendar(s1);
    } else if c.dragStartH == week && (c.previewStarted || ToMonthGate(tx, ty)) {
      var s1 := if c.previewStarted then s else ToMonthPreviewBegun(s.(ctl := c.(previewStarted := true)));
      SupersededKeepsCalendar(s1);
    }
  }

  /**
   * The update that opens the week-height gate begins the month preview:
   * the flag is raised, the phase is `toMonth` and the calendar shows the
   * month of the week anchor, before any animation could interfere.
   */
  lemma ToMonthPreviewStarts(s: Screen, cell: real, tx: real, ty: real)
    requires ValidCellSide(cell)
    requires s.ctl.dragStartH == WeekGridH(cell) && !s.ctl.previewStarted && ToMonthGate(tx, ty)
    requires s.ctl.anim.AtRest?
    ensures var r := DragUpdated(s, cell, tx, ty);
            && r.ctl.previewStarted && r.ctl.isDragPreview && r.ctl.phase == ToMonth
            && r.cal.viewMode == Month
            && r.cal.ym == GetYearMonthFrom(s.cal.weekAnchor)
            && FirstOfMonth(r.cal.ym) <= s.cal.weekAnchor < FirstOfMonth(r.cal.ym) + MonthLength(r.cal.ym)
            && r.cal.selectedDate == s.cal.selectedDate && r.cal.weekAnchor == s.cal.weekAnchor
  {
    MonthGridHTaller(cell);
  }

  lemma MonthGridHTaller(cell: real)
    requires ValidCellSide(cell)
    ensures MonthGridH(cell) != WeekGridH(cell)
  {
  }

  /**
   * The release decision.  From month height the grid heads for the week
   * height exactly when the drag commits; from any other height it heads
   * for the month height exactly when the drag commits.  A drag whose
   * preview never started never commits, and never changes the calendar.
   */
  lemma DragEndDecision(s: Screen, cell: real, ty: real, vy: real)
    requires ValidCellSide(cell) && Sound(s, cell)
    ensures var r := DragEnded(s, cell, ty, vy);
            var month, week := MonthGridH(cell), WeekGridH(cell);
            && Sound(r, cell)
            && r.cal == s.cal
            && r.ctl.anim.Animating?
            && (s.ctl.dragStartH == month ==>
                  (r.ctl.anim.target == week <==> CommitsToWeek(s.ctl.previewStarted, ty, vy)))
            && (s.ctl.dragStartH != month ==>
                  (r.ctl.anim.target == month <==> CommitsToMonth(s.ctl.previewStarted, s.ctl.progress, ty, vy)))
            && (r.ctl.progress == 1.0 || r.ctl.progress == 0.0)
            && (!s.ctl.previewStarted ==>
                  r.ctl.anim == (if s.ctl.dragStartH == month then Animating(month, NoCallback)
                                 else Animating(week, AfterCancelToWeek(false)))
                  && HeightFinished(r).cal == s.cal)
  {
    var month, week := MonthGridH(cell), WeekGridH(cell);
    SupersededKeepsCalendar(WithProgress(s, 0.0));
    SupersededKeepsCalendar(WithProgress(s, 1.0));
  }

  /**
   * A committed drag from month height that runs to the end leaves the
   * calendar in week mode, anchored on the selected date (or the previous
   * anchor when none is selected), at week height, with the phase idle.
   */
  lemma CommitToWeekCompletes(s: Screen, cell: real, ty: real, vy: real)
    requires ValidCellSide(cell)
    requires s.ctl.dragStartH == MonthGridH(cell) && CommitsToWeek(s.ctl.previewStarted, ty, vy)
    ensures var f := HeightFinished(DragEnded(s, cell, ty, vy));
            && f.cal.viewMode == Week
            && f.cal.weekAnchor == (if s.cal.selectedDate.Some? then s.cal.selectedDate.value else s.cal.weekAnchor)
            && f.cal.ym == s.cal.ym && f.cal.selectedDate == s.cal.selectedDate
            && f.ctl.phase == Idle && f.ctl.gridH == WeekGridH(cell) && f.ctl.anim == AtRest
  {
    SupersededKeepsCalendar(WithProgress(s, 1.0));
  }

  /**
   * A committed drag from week height that runs to the end lowers the
   * drag-preview flag and leaves the mode as it is (month, since the
   * preview switched to it) at month height, with the phase idle.
   */
  lemma CommitToMonthCompletes(s: Screen, cell: real, ty: real, vy: real)
    requires ValidCellSide(cell)
    requires s.ctl.dragStartH != MonthGridH(cell) && CommitsToMonth(s.ctl.previewStarted, s.ctl.progress, ty, vy)
    ensures var f := HeightFinished(DragEnded(s, cell, ty, vy));
            && f.cal == s.cal
            && !f.ctl.isDragPreview && f.ctl.phase == Idle
            && f.ctl.gridH == MonthGridH(cell) && f.ctl.anim == AtRest
  {
    SupersededKeepsCalendar(WithProgress(s, 1.0));
  }

  /**
   * A cancelled drag from week height returns the phase to idle whether
   * its animation finishes or is stopped.  Finished, it settles at week
   * height; if its preview had started it also switches back to week mode
   * and lowers the drag-preview flag, and otherwise leaves the calendar alone.
   */
  lemma CancelToWeekCompletes(s: Screen, cell: real, ty: real, vy: real)
    requires ValidCellSide(cell)
    requires s.ctl.dragStartH != MonthGridH(cell) && !CommitsToMonth(s.ctl.previewStarted, s.ctl.progress, ty, vy)
    ensures var r := DragEnded(s, cell, ty, vy);
            var f := HeightFinished(r);
            && f.ctl.phase == Idle && f.ctl.gridH == WeekGridH(cell)
            && (s.ctl.previewStarted ==> f.cal == s.cal.(viewMode := Week) && !f.ctl.isDragPreview)
            && (!s.ctl.previewStarted ==> f.cal == s.cal)
            && Superseded(r).ctl.phase == Idle && Superseded(r).cal == s.cal
  {
    SupersededKeepsCalendar(WithProgress(s, 0.0));
  }

  /** A cancelled drag from month height springs back to month height and returns the phase to idle at once. */
  lemma CancelToMonthSettles(s: Screen, cell: real, ty: real, vy: real)
    requires ValidCellSide(cell)
    requires s.ctl.dragStartH == MonthGridH(cell) && !CommitsToWeek(s.ctl.previewStarted, ty, vy)
    ensures var r := DragEnded(s, cell, ty, vy);
            && r.ctl.phase == Idle && r.ctl.progress == 0.0 && r.cal == s.cal
            && HeightFinished(r).ctl.gridH == MonthGridH(cell) && HeightFinished(r).cal == s.cal
  {
    SupersededKeepsCalendar(WithProgress(s, 0.0));
  }

  /**
   * A drag that begins while the grid is between the two heights does
   * nothing on update, whatever the travel; on release it falls into the
   * week-height cancel, sending the grid to week height without touching
   * the calendar.
   */
  lemma MidAnimationDragIsInert(s: Screen, cell: real, tx: real, ty: real, ty2: real, vy: real)
    requires ValidCellSide(cell)
    requires s.ctl.gridH != MonthGridH(cell) && s.ctl.gridH != WeekGridH(cell)
    ensures var b := DragBegun(s);
            var u := DragUpdated(b, cell, tx, ty);
            var e := DragEnded(u, cell, ty2, vy);
            && u == b
            && e.ctl.anim == Animating(WeekGridH(cell), AfterCancelToWeek(false))
            && e.cal == s.cal
            && HeightFinished(e).cal == s.cal
            && HeightFinished(e).ctl.gridH == WeekGridH(cell)
            && HeightFinished(e).ctl.phase == Idle
  {
    SupersededKeepsCalendar(WithProgress(DragBegun(s), 0.0));
  }

  /**
   * The toggle from month mode enters `toWeek` and animates to week height;
   * run to the end it switches to week mode (anchored on the selected date),
   * returns the phase to idle and resets the progress.
   */
  lemma ToggleFromMonth(s: Screen, cell: real)
    requires ValidCellSide(cell) && Sound(s, cell)
    requires s.cal.viewMode == Month
    ensures var r := Toggled(s, cell);
            var f := HeightFinished(r);
            && Sound(r, cell)
            && r.cal == s.cal && r.ctl.progress == 1.0
            && r.ctl.anim == Animating(WeekGridH(cell), AfterToggleToWeek)
            && (s.ctl.anim.AtRest? ==> r.ctl.phase == ToWeek)
            && f.cal.viewMode == Week
            && f.cal.weekAnchor == (if s.cal.selectedDate.Some? then s.cal.selectedDate.value else s.cal.weekAnchor)
            && f.ctl.phase == Idle && f.ctl.progress == 0.0 && f.ctl.gridH == WeekGridH(cell)
  {
    SupersededKeepsCalendar(s.(ctl := s.ctl.(phase := ToWeek, progress := 1.0)));
  }

  /**
   * The toggle from week mode raises the drag-preview flag, enters
   * `toMonth` and switches to the week anchor's month before it animates to
   * month height; its completion lowers the flag and returns the phase to
   * idle whether or not the animation finishes.
   */
  lemma ToggleFromWeek(s: Screen, cell: real, finished: bool)
    requires ValidCellSide(cell) && Sound(s, cell)
    requires s.cal.viewMode == Week
    ensures var r := Toggled(s, cell);
            && Sound(r, cell)
            && r.cal == SwitchedToMonth(s.cal) && r.cal.viewMode == Month
            && FirstOfMonth(r.cal.ym) <= s.cal.weekAnchor < FirstOfMonth(r.cal.ym) + MonthLength(r.cal.ym)
            && r.ctl.progress == 1.0
            && r.ctl.anim == Animating(MonthGridH(cell), AfterToggleToMonth)
            && (s.ctl.anim.AtRest? ==> r.ctl.isDragPreview && r.ctl.phase == ToMonth)
            && !Superseded(r).ctl.isDragPreview && Superseded(r).ctl.phase == Idle
            && !HeightFinished(r).ctl.isDragPreview && HeightFinished(r).ctl.phase == Idle
            && HeightFinished(r).ctl.gridH == MonthGridH(cell) && HeightFinished(r).cal == r.cal
  {
    var s1 := Screen(SwitchedToMonth(s.cal), s.ctl.(isDragPreview := true, phase := ToMonth));
    SupersededKeepsCalendar(WithProgress(s1, 1.0));
  }

  /** Frames and the end of an animation keep the heights in range. */
  lemma AnimationKeepsSound(s: Screen, cell: real, h: real)
    requires ValidCellSide(cell) && Sound(s, cell) && s.ctl.anim.Animating?
    ensures Sound(HeightFinished(s), cell)
    ensures Between(h, s.ctl.gridH, s.ctl.anim.target) ==> Sound(HeightFramed(s, h), cell)
  {
  }

  /** Writing a height in range, or starting an animation to either height, keeps the state sound. */
  lemma HeightWritesKeepSound(s: Screen, cell: real, h: real, toMonth: bool, cb: Callback)
    requires ValidCellSide(cell) && Sound(s, cell)
    ensures WeekGridH(cell) <= h <= MonthGridH(cell) ==> Sound(HeightSet(s, h), cell)
    ensures Sound(HeightAnimated(s, if toMonth then MonthGridH(cell) else WeekGridH(cell), cb), cell)
  {
    SupersededKeepsCalendar(s);
  }
}
