/**
 * The orchestrator (CalendarContainer.tsx): the calendar state, the pager
 * and the transition controller together; the date selection handler; the
 * effect that reacts to a view-mode change; and the date the title shows.
 *
 * Every user or animation event goes through its handler first; when the
 * handler changed the view mode, the view-mode effect runs after it, as
 * React runs an effect after the render that follows a state change.  The
 * effect runs once on mount as well.
 */
module CalendarContainer {
  import opened CalendarTypes
  import opened CalendarUtils
  import opened CalendarConstants
  import opened CalendarState
  import opened InfinitePager
  import opened VerticalTransition
  import opened TransitionProperties
  import PagerProperties

  datatype World = World(screen: Screen, pager: PagerState)

  /** What can happen to the calendar: user input, and the grid animation's frames and end. */
  datatype Event =
    | SelectDate(date: Day)
    | ToggleViewMode
    | PanBegin
    | PanUpdate(tx: real, ty: real)
    | PanEnd(ty: real, vy: real)
    | HeightFrame(h: real)
    | HeightDone
    | PressPrev
    | PressNext
    | PageMomentumEnd(nextIndex: int)

  /** The pager's windows are well formed, the displayed month is a real month, and the heights and progress are in range. */
  predicate ValidWorld(w: World, cell: real)
    requires ValidCellSide(cell)
  {
    ValidPager(w.pager) && ValidYearMonth(w.screen.cal.ym) && Sound(w.screen, cell)
  }

  /** Animation events need a running animation; a settled page index lies in the current window. */
  predicate Enabled(w: World, e: Event) {
    match e
    case HeightFrame(h) => w.screen.ctl.anim.Animating? && Between(h, w.screen.ctl.gridH, w.screen.ctl.anim.target)
    case HeightDone => w.screen.ctl.anim.Animating?
    case PageMomentumEnd(i) => 0 <= i < |WindowOf(w.pager, w.screen.cal.viewMode).offsets|
    case _ => true
  }

  /** `handleSelectDate`: the date is selected, and in week mode it also becomes the week anchor. */
  function DateSelected(c: Calendar, d: Day): Calendar {
    c.(selectedDate := Some(d), weekAnchor := if c.viewMode == Week then d else c.weekAnchor)
  }

  /** The handler of an event, before any effect. */
  function Handled(w: World, e: Event, cell: real): World
    requires ValidCellSide(cell) && ValidPager(w.pager) && Enabled(w, e)
  {
    var cal := w.screen.cal;
    match e
    case SelectDate(d) => w.(screen := w.screen.(cal := DateSelected(cal, d)))
    case ToggleViewMode => w.(screen := Toggled(w.screen, cell))
    case PanBegin => w.(screen := DragBegun(w.screen))
    case PanUpdate(tx, ty) => w.(screen := DragUpdated(w.screen, cell, tx, ty))
    case PanEnd(ty, vy) => w.(screen := DragEnded(w.screen, cell, ty, vy))
    case HeightFrame(h) => w.(screen := HeightFramed(w.screen, h))
    case HeightDone => w.(screen := HeightFinished(w.screen))
    case PressPrev => w.(pager := PrevPressed(w.pager, cal.viewMode))
    case PressNext => w.(pager := NextPressed(w.pager, cal.viewMode))
    case PageMomentumEnd(i) =>
      var s := MomentumEnded(w.pager, cal.viewMode, cal.ym, cal.weekAnchor, i);
      World(w.screen.(cal := cal.(ym := s.ym, weekAnchor := s.weekAnchor)), s.pager)
  }

  /**
   * The view-mode effect as written: a non-animated scroll to the new mode's
   * center page; then in month mode the height is set straight to the week
   * height while the drag-preview flag is up, and otherwise animated to the
   * month height; in week mode it is animated to the week height and the
   * progress reset.
   */
  function ViewModeEffectAsWritten(w: World, cell: real): World
    requires ValidCellSide(cell)
  {
    var mode := w.screen.cal.viewMode;
    var p := ScrollRequested(w.pager, WindowOf(w.pager, mode).center, false);
    var s := w.screen;
    if mode == Month then
      if s.ctl.isDragPreview then World(HeightSet(s, WeekGridH(cell)), p)
      else World(HeightAnimated(s, MonthGridH(cell), NoCallback), p)
    else
      World(WithProgress(HeightAnimated(s, WeekGridH(cell), NoCallback), 0.0), p)
  }

  /**
   * The view-mode effect as the comment above it describes it: while the
   * drag-preview flag is up the height is left to whoever raised the flag
   * (the drag, or the toggle's own animation); otherwise as written.
   */
  function ViewModeEffect(w: World, cell: real): World
    requires ValidCellSide(cell)
  {
    var mode := w.screen.cal.viewMode;
    var p := ScrollRequested(w.pager, WindowOf(w.pager, mode).center, false);
    var s := w.screen;
    if mode == Month then
      if s.ctl.isDragPreview then World(s, p)
      else World(HeightAnimated(s, MonthGridH(cell), NoCallback), p)
    else
      World(WithProgress(HeightAnimated(s, WeekGridH(cell), NoCallback), 0.0), p)
  }

  /** An event: its handler, then the effect if the view mode changed. */
  function Step(w: World, e: Event, cell: real): World
    requires ValidCellSide(cell) && ValidPager(w.pager) && Enabled(w, e)
  {
    var h := Handled(w, e, cell);
    if h.screen.cal.viewMode != w.screen.cal.viewMode then ViewModeEffect(h, cell) else h
  }

  /** The same with the effect as written. */
  function StepAsWritten(w: World, e: Event, cell: real): World
    requires ValidCellSide(cell) && ValidPager(w.pager) && Enabled(w, e)
  {
    var h := Handled(w, e, cell);
    if h.screen.cal.viewMode != w.screen.cal.viewMode then ViewModeEffectAsWritten(h, cell) else h
  }

  /** Mount: the initial states of the calendar, the controller and the pager, then the effect. */
  function InitialWorld(today: Day, cell: real): World
    requires ValidCellSide(cell)
  {
    ViewModeEffect(World(Screen(InitialCalendar(today), InitialController(cell)), InitialPager()), cell)
  }

  /** The date the title names: the Sunday of the anchor's week, or the first of the displayed month. */
  function TitleDate(c: Calendar): Day {
    if c.viewMode == Week then WeekStartSunday(c.weekAnchor)
    else MakeDate(c.ym.year, c.ym.monthIndex, 1)
  }

  /** The effect keeps the windows well formed and the heights in range. */
  lemma EffectKeepsValid(w: World, cell: real)
    requires ValidCellSide(cell) && ValidWorld(w, cell)
    ensures ValidWorld(ViewModeEffect(w, cell), cell)
    ensures ValidWorld(ViewModeEffectAsWritten(w, cell), cell)
  {
    HeightWritesKeepSound(w.screen, cell, WeekGridH(cell), true, NoCallback);
    HeightWritesKeepSound(w.screen, cell, WeekGridH(cell), false, NoCallback);
  }

  /** Every handler keeps the windows well formed and the heights in range. */
  lemma HandledKeepsValid(w: World, e: Event, cell: real)
    requires ValidCellSide(cell) && ValidWorld(w, cell) && Enabled(w, e)
    ensures ValidWorld(Handled(w, e, cell), cell)
  {
    var cal := w.screen.cal;
    match e
    case SelectDate(d) =>
    case ToggleViewMode =>
      if cal.viewMode == Month {
        ToggleFromMonth(w.screen, cell);
      } else {
        ToggleFromWeek(w.screen, cell, true);
      }
    case PanBegin => DragBeginKeepsSound(w.screen, cell);
    case PanUpdate(tx, ty) => DragUpdateKeepsSound(w.screen, cell, tx, ty);
    case PanEnd(ty, vy) => DragEndDecision(w.screen, cell, ty, vy);
    case HeightFrame(h) => AnimationKeepsSound(w.screen, cell, h);
    case HeightDone => AnimationKeepsSound(w.screen, cell, w.screen.ctl.gridH);
    case PressPrev =>
    case PressNext =>
    case PageMomentumEnd(i) =>
      PagerProperties.MomentumEndFollowsPage(w.pager, cal.viewMode, cal.ym, cal.weekAnchor, i);
  }

  lemma StepKeepsValid(w: World, e: Event, cell: real)
    requires ValidCellSide(cell) && ValidWorld(w, cell) && Enabled(w, e)
    ensures ValidWorld(Step(w, e, cell), cell)
    ensures ValidWorld(StepAsWritten(w, e, cell), cell)
  {
    HandledKeepsValid(w, e, cell);
    EffectKeepsValid(Handled(w, e, cell), cell);
  }

  /** The component itself: the state cells, the pager and the transition controller, wired together. */
  class Container {
    const cell: real
    const store: CalendarStore
    const transition: Transition
    const pager: Pager

    function Model(): World
      reads store, transition, pager
    {
      World(Screen(store.Model(), transition.Controls()), pager.Model())
    }

    predicate Valid()
      reads store, transition, pager
    {
      && transition.store == store && transition.cell == cell
      && ValidCellSide(cell)
      && ValidWorld(Model(), cell)
    }

    constructor(cell: real, today: Day)
      requires ValidCellSide(cell)
      ensures Valid() && Model() == InitialWorld(today, cell)
    {
      this.cell := cell;
      var st := new CalendarStore(today);
      store := st;
      transition := new Transition(cell, st);
      pager := new Pager();
      new;
      InitiallySound(store.Model(), cell);
      RunViewModeEffect();
      EffectKeepsValid(World(Screen(InitialCalendar(today), InitialController(cell)), InitialPager()), cell);
    }

    /** The `useEffect` on `viewMode` (in its corrected form). */
    method RunViewModeEffect()
      requires transition.store == store && ValidCellSide(cell)
      modifies store, transition, pager
      ensures Model() == ViewModeEffect(old(Model()), cell)
    {
      var idx := pager.CurrentIndex(store.viewMode);
      pager.RequestScroll(idx, false);
      if store.viewMode == Month {
        if !transition.isDragPreview {
          transition.AnimateHeight(MonthGridH(cell), NoCallback);
        }
      } else {
        transition.AnimateHeight(WeekGridH(cell), NoCallback);
        transition.progress := 0.0;
      }
    }

    /** Runs the effect when the handler just run changed the view mode. */
    method AfterHandler(before: ViewMode)
      requires transition.store == store && ValidCellSide(cell)
      modifies store, transition, pager
      ensures Model() == (if old(Model()).screen.cal.viewMode != before then ViewModeEffect(old(Model()), cell) else old(Model()))
    {
      if store.viewMode != before {
        RunViewModeEffect();
      }
    }

    method SelectDate(d: Day)
      requires Valid()
      modifies store, transition, pager
      ensures Valid() && Model() == Step(old(Model()), Event.SelectDate(d), cell)
    {
      StepKeepsValid(Model(), Event.SelectDate(d), cell);
      var before := store.viewMode;
      store.selectedDate := Some(d);
      if store.viewMode == Week {
        store.weekAnchor := d;
      }
      AfterHandler(before);
    }

    method Toggle()
      requires Valid()
      modifies store, transition, pager
      ensures Valid() && Model() == Step(old(Model()), Event.ToggleViewMode, cell)
    {
      StepKeepsValid(Model(), Event.ToggleViewMode, cell);
      var before := store.viewMode;
      transition.Toggle();
      AfterHandler(before);
    }

    method PanBegin()
      requires Valid()
      modifies store, transition, pager
      ensures Valid() && Model() == Step(old(Model()), Event.PanBegin, cell)
    {
      StepKeepsValid(Model(), Event.PanBegin, cell);
      var before := store.viewMode;
      transition.DragBegin();
      AfterHandler(before);
    }

    method PanUpdate(tx: real, ty: real)
      requires Valid()
      modifies store, transition, pager
      ensures Valid() && Model() == Step(old(Model()), Event.PanUpdate(tx, ty), cell)
    {
      StepKeepsValid(Model(), Event.PanUpdate(tx, ty), cell);
      var before := store.viewMode;
      transition.DragUpdate(tx, ty);
      AfterHandler(before);
    }

    method PanEnd(ty: real, vy: real)
      requires Valid()
      modifies store, transition, pager
      ensures Valid() && Model() == Step(old(Model()), Event.PanEnd(ty, vy), cell)
    {
      StepKeepsValid(Model(), Event.PanEnd(ty, vy), cell);
      var before := store.viewMode;
      transition.DragEnd(ty, vy);
      AfterHandler(before);
    }

    method HeightFrame(h: real)
      requires Valid() && Enabled(Model(), Event.HeightFrame(h))
      modifies store, transition, pager
      ensures Valid() && Model() == Step(old(Model()), Event.HeightFrame(h), cell)
    {
      StepKeepsValid(Model(), Event.HeightFrame(h), cell);
      var before := store.viewMode;
      transition.AnimationFrame(h);
      AfterHandler(before);
    }

    method HeightDone()
      requires Valid() && Enabled(Model(), Event.HeightDone)
      modifies store, transition, pager
      ensures Valid() && Model() == Step(old(Model()), Event.HeightDone, cell)
    {
      StepKeepsValid(Model(), Event.HeightDone, cell);
      var before := store.viewMode;
      transition.AnimationFinished();
      AfterHandler(before);
    }

    method PressPrev()
      requires Valid()
      modifies store, transition, pager
      ensures Valid() && Model() == Step(old(Model()), Event.PressPrev, cell)
    {
      StepKeepsValid(Model(), Event.PressPrev, cell);
      var before := store.viewMode;
      pager.PressPrev(store.viewMode);
      AfterHandler(before);
    }

    method PressNext()
      requires Valid()
      modifies store, transition, pager
      ensures Valid() && Model() == Step(old(Model()), Event.PressNext, cell)
    {
      StepKeepsValid(Model(), Event.PressNext, cell);
      var before := store.viewMode;
      pager.PressNext(store.viewMode);
      AfterHandler(before);
    }

    method PageMomentumEnd(nextIndex: int)
      requires Valid() && Enabled(Model(), Event.PageMomentumEnd(nextIndex))
      modifies store, transition, pager
      ensures Valid() && Model() == Step(old(Model()), Event.PageMomentumEnd(nextIndex), cell)
    {
      StepKeepsValid(Model(), Event.PageMomentumEnd(nextIndex), cell);
      var before := store.viewMode;
      var ym, anchor := pager.MomentumEnd(store.viewMode, store.ym, store.weekAnchor, nextIndex);
      store.ym := ym;
      store.weekAnchor := anchor;
      AfterHandler(before);
    }

    /** `titleLabel`'s date. */
    function Title(): Day
      reads store
    {
      TitleDate(store.Model())
    }
  }
}
