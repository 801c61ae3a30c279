/**
 * The month/week vertical transition (useVerticalTransition.ts): the pan
 * gesture's begin/update/end callbacks, the header toggle, and the
 * completion callbacks of the grid-height animation.
 *
 * Reanimated is modelled by its observable rules only:
 * - a timed animation is its target value and a pending completion callback;
 * - writing the grid height, directly or with a new animation, stops the
 *   running animation, whose callback then runs with `finished == false`;
 * - frames move the height towards the target (`HeightFramed`), and the end
 *   of the animation sets the target and runs the callback with
 *   `finished == true` (`HeightFinished`).
 * The progress value is only ever read as its target, so its animations are
 * modelled as plain writes.  Work handed to the JavaScript thread
 * (`runOnJS`, `setTimeout(…, 0)`) is applied in program order.
 *
 * The functions are the state after each callback; class `Transition` holds
 * the shared values, the ref and the phase state and updates them in place.
 */
module VerticalTransition {
  import opened CalendarTypes
  import opened CalendarUtils
  import opened CalendarConstants
  import opened CalendarState
  import opened Easing

  /** Vertical travel, in points, that takes the progress from 0 to 1. */
  const DRAG_RANGE: real := 180.0
  /** Vertical release speed that commits a transition whatever the travel. */
  const TOGGLE_VELOCITY: real := 900.0
  /** Share of `DRAG_RANGE` whose travel commits a transition. */
  const COMMIT_SHARE: real := 0.35
  /** Vertical travel must exceed horizontal travel by this factor to start a preview. */
  const V_INTENT_FACTOR: real := 1.15
  /** Vertical travel needed before a preview starts. */
  const V_START: real := 12.0

  /** The completion callbacks handed to the grid-height animations. */
  datatype Callback =
    | NoCallback
    | AfterCommitToWeek
    | AfterCommitToMonth
    | AfterCancelToWeek(started: bool)
    | AfterToggleToWeek
    | AfterToggleToMonth

  /** The grid height is either at rest or animating towards `target`. */
  datatype Animation = AtRest | Animating(target: real, onDone: Callback)

  /**
   * The hook's own state: the `gridH`, `dragStartH`, `verticalProgress` and
   * `previewStarted` shared values, the running grid animation, the
   * `verticalPhase` state and the `isDragPreviewRef` ref.
   */
  datatype Controller = Controller(
    gridH: real,
    anim: Animation,
    dragStartH: real,
    progress: real,
    phase: Phase,
    isDragPreview: bool,
    previewStarted: bool)

  /** The calendar state together with the transition state. */
  datatype Screen = Screen(cal: Calendar, ctl: Controller)

  function Abs(x: real): (r: real)
    ensures r >= 0.0 && (r == x || r == -x)
  {
    if x < 0.0 then -x else x
  }

  /** The height `p` of the way from `from` to `to`. */
  function Lerp(from: real, to: real, p: real): real {
    from + (to - from) * p
  }

  /** Month height, at rest, nothing started: the hook's initial values. */
  function InitialController(cell: real): (c: Controller)
    requires ValidCellSide(cell)
  {
    Controller(MonthGridH(cell), AtRest, MonthGridH(cell), 0.0, Idle, false, false)
  }

  /** `switchToWeek`: the week anchor becomes the selected date (if any), and the mode week. */
  function SwitchedToWeek(c: Calendar): Calendar {
    var anchor := if c.selectedDate.Some? then c.selectedDate.value else c.weekAnchor;
    c.(weekAnchor := anchor, viewMode := Week)
  }

  /** `switchToMonth`: the displayed month becomes the week anchor's month, and the mode month. */
  function SwitchedToMonth(c: Calendar): (r: Calendar)
    ensures r.viewMode == Month && r.weekAnchor == c.weekAnchor && r.selectedDate == c.selectedDate
    ensures ValidYearMonth(r.ym) && FirstOfMonth(r.ym) <= r.weekAnchor < FirstOfMonth(r.ym) + MonthLength(r.ym)
  {
    c.(ym := GetYearMonthFrom(c.weekAnchor), viewMode := Month)
  }

  /** `beginToMonthPreview`: raise the drag-preview flag, enter `toMonth`, switch to month. */
  function ToMonthPreviewBegun(s: Screen): Screen {
    Screen(SwitchedToMonth(s.cal), s.ctl.(isDragPreview := true, phase := ToMonth))
  }

  function WithPhase(s: Screen, phase: Phase): Screen {
    s.(ctl := s.ctl.(phase := phase))
  }

  function WithProgress(s: Screen, progress: real): Screen {
    s.(ctl := s.ctl.(progress := progress))
  }

  /** What a completion callback does, given whether its animation ran to the end. */
  function AfterCallback(s: Screen, cb: Callback, finished: bool): Screen {
    match cb
    case NoCallback => s
    case AfterCommitToWeek =>
      if finished then Screen(SwitchedToWeek(s.cal), s.ctl.(phase := Idle)) else s
    case AfterCommitToMonth =>
      if finished then s.(ctl := s.ctl.(isDragPreview := false, phase := Idle)) else s
    case AfterCancelToWeek(started) =>
      var s1 := if finished && started then Screen(s.cal.(viewMode := Week), s.ctl.(isDragPreview := false)) else s;
      WithPhase(s1, Idle)
    case AfterToggleToWeek =>
      if finished then Screen(SwitchedToWeek(s.cal), s.ctl.(phase := Idle, progress := 0.0)) else s
    case AfterToggleToMonth =>
      s.(ctl := s.ctl.(isDragPreview := false, phase := Idle))
  }

  /** A write to the grid height stops the running animation: its callback runs unfinished. */
  function Superseded(s: Screen): Screen {
    match s.ctl.anim
    case AtRest => s
    case Animating(_, cb) => AfterCallback(s.(ctl := s.ctl.(anim := AtRest)), cb, false)
  }

  /** `gridH.value = h`. */
  function HeightSet(s: Screen, h: real): Screen {
    var s1 := Superseded(s);
    s1.(ctl := s1.ctl.(gridH := h))
  }

  /** `gridH.value = withTiming(target, …, cb)`. */
  function HeightAnimated(s: Screen, target: real, cb: Callback): Screen {
    var s1 := Superseded(s);
    s1.(ctl := s1.ctl.(anim := Animating(target, cb)))
  }

  /** `h` lies between `a` and `b`, in either order. */
  predicate Between(h: real, a: real, b: real) {
    (a <= h <= b) || (b <= h <= a)
  }

  /** One frame of the running animation: the height moves towards the target. */
  function HeightFramed(s: Screen, h: real): Screen
    requires s.ctl.anim.Animating? && Between(h, s.ctl.gridH, s.ctl.anim.target)
  {
    s.(ctl := s.ctl.(gridH := h))
  }

  /** The running animation reaches its target; its callback runs finished. */
  function HeightFinished(s: Screen): Screen
    requires s.ctl.anim.Animating?
  {
    var a := s.ctl.anim;
    AfterCallback(s.(ctl := s.ctl.(gridH := a.target, anim := AtRest)), a.onDone, true)
  }

  /** Pan `onBegin`: remember the height the drag starts from, reset the preview, phase and progress. */
  function DragBegun(s: Screen): Screen {
    s.(ctl := s.ctl.(dragStartH := s.ctl.gridH, previewStarted := false, phase := Idle, progress := 0.0))
  }

  /** Vertical travel dominates horizontal travel. */
  predicate VerticalDominant(tx: real, ty: real) {
    Abs(ty) > Abs(tx) * V_INTENT_FACTOR
  }

  /** The gate that starts a month-to-week preview: enough upward, mostly vertical travel. */
  predicate ToWeekGate(tx: real, ty: real) {
    -ty > V_START && VerticalDominant(tx, ty)
  }

  /** The gate that starts a week-to-month preview: enough downward, mostly vertical travel. */
  predicate ToMonthGate(tx: real, ty: real) {
    ty > V_START && VerticalDominant(tx, ty)
  }

  /**
   * Pan `onUpdate` with translation (`tx`, `ty`).  Only a drag that began at
   * exactly the month or exactly the week height does anything.
   */
  function DragUpdated(s: Screen, cell: real, tx: real, ty: real): Screen
    requires ValidCellSide(cell)
  {
    var c := s.ctl;
    var month, week := MonthGridH(cell), WeekGridH(cell);
    if c.dragStartH == month then
      if !c.previewStarted && !ToWeekGate(tx, ty) then s
      else
        var s1 := if c.previewStarted then s else s.(ctl := c.(previewStarted := true, phase := ToWeek));
        var p := Clamp01(-ty / DRAG_RANGE);
        WithProgress(HeightSet(s1, Lerp(month, week, p)), p)
    else if c.dragStartH == week then
      if !c.previewStarted && !ToMonthGate(tx, ty) then s
      else
        var s1 := if c.previewStarted then s else ToMonthPreviewBegun(s.(ctl := c.(previewStarted := true)));
        var p := Clamp01(ty / DRAG_RANGE);
        WithProgress(HeightSet(s1, Lerp(week, month, p)), p)
    else
      s
  }

  /** A release from month height commits to week. */
  predicate CommitsToWeek(started: bool, ty: real, vy: real) {
    started && (-ty > DRAG_RANGE * COMMIT_SHARE || vy < -TOGGLE_VELOCITY)
  }

  /** A release from any other height commits to month. */
  predicate CommitsToMonth(started: bool, progress: real, ty: real, vy: real) {
    started && (ty > DRAG_RANGE * COMMIT_SHARE || vy > TOGGLE_VELOCITY || progress > 0.5)
  }

  /** Pan `onEnd` with final translation `ty` and velocity `vy`. */
  function DragEnded(s: Screen, cell: real, ty: real, vy: real): Screen
    requires ValidCellSide(cell)
  {
    var c := s.ctl;
    var month, week := MonthGridH(cell), WeekGridH(cell);
    if c.dragStartH == month then
      if CommitsToWeek(c.previewStarted, ty, vy) then
        HeightAnimated(WithProgress(s, 1.0), week, AfterCommitToWeek)
      else
        WithPhase(HeightAnimated(WithProgress(s, 0.0), month, NoCallback), Idle)
    else
      if CommitsToMonth(c.previewStarted, c.progress, ty, vy) then
        HeightAnimated(WithProgress(s, 1.0), month, AfterCommitToMonth)
      else
        HeightAnimated(WithProgress(s, 0.0), week, AfterCancelToWeek(c.previewStarted))
  }

  /** `handleToggleViewMode`. */
  function Toggled(s: Screen, cell: real): Screen
    requires ValidCellSide(cell)
  {
    if s.cal.viewMode == Month then
      HeightAnimated(s.(ctl := s.ctl.(phase := ToWeek, progress := 1.0)), WeekGridH(cell), AfterToggleToWeek)
    else
      var s1 := Screen(SwitchedToMonth(s.cal), s.ctl.(isDragPreview := true, phase := ToMonth));
      HeightAnimated(WithProgress(s1, 1.0), MonthGridH(cell), AfterToggleToMonth)
  }

  /**
   * The heights stay between the week and the month height, the progress
   * between 0 and 1, and every animation heads for one of the two heights.
   */
  predicate Sound(s: Screen, cell: real)
    requires ValidCellSide(cell)
  {
    var c := s.ctl;
    var month, week := MonthGridH(cell), WeekGridH(cell);
    && week <= c.gridH <= month
    && week <= c.dragStartH <= month
    && 0.0 <= c.progress <= 1.0
    && (c.anim.Animating? ==> c.anim.target == week || c.anim.target == month)
  }

  /** The hook's shared values, ref and phase state, updating the calendar through its setters. */
  class Transition {
    const cell: real
    const store: CalendarStore
    var gridH: real
    var anim: Animation
    var dragStartH: real
    var progress: real
    var phase: Phase
    var isDragPreview: bool
    var previewStarted: bool

    function Controls(): Controller
      reads this
    {
      Controller(gridH, anim, dragStartH, progress, phase, isDragPreview, previewStarted)
    }

    function Model(): Screen
      reads this, store
    {
      Screen(store.Model(), Controls())
    }

    constructor(cell: real, store: CalendarStore)
      requires ValidCellSide(cell)
      ensures this.cell == cell && this.store == store
      ensures Controls() == InitialController(cell)
    {
      this.cell := cell;
      this.store := store;
      gridH := MonthGridH(cell);
      anim := AtRest;
      dragStartH := MonthGridH(cell);
      progress := 0.0;
      phase := Idle;
      isDragPreview := false;
      previewStarted := false;
    }

    method SwitchToWeek()
      modifies store
      ensures store.Model() == SwitchedToWeek(old(store.Model()))
    {
      if store.selectedDate.Some? {
        store.weekAnchor := store.selectedDate.value;
      }
      store.viewMode := Week;
    }

    method SwitchToMonth()
      modifies store
      ensures store.Model() == SwitchedToMonth(old(store.Model()))
    {
      store.ym := GetYearMonthFrom(store.weekAnchor);
      store.viewMode := Month;
    }

    method BeginToMonthPreview()
      modifies this, store
      ensures Model() == ToMonthPreviewBegun(old(Model()))
    {
      isDragPreview := true;
      phase := ToMonth;
      SwitchToMonth();
    }

    method RunCallback(cb: Callback, finished: bool)
      modifies this, store
      ensures Model() == AfterCallback(old(Model()), cb, finished)
    {
      match cb
      case NoCallback =>
      case AfterCommitToWeek =>
        if finished {
          SwitchToWeek();
          phase := Idle;
        }
      case AfterCommitToMonth =>
        if finished {
          isDragPreview := false;
          phase := Idle;
        }
      case AfterCancelToWeek(started) =>
        if finished && started {
          store.viewMode := Week;
          isDragPreview := false;
        }
        phase := Idle;
      case AfterToggleToWeek =>
        if finished {
          SwitchToWeek();
          phase := Idle;
          progress := 0.0;
        }
      case AfterToggleToMonth =>
        isDragPreview := false;
        phase := Idle;
    }

    method StopAnimation()
      modifies this, store
      ensures Model() == Superseded(old(Model()))
    {
      match anim
      case AtRest =>
      case Animating(_, cb) =>
        anim := AtRest;
        RunCallback(cb, false);
    }

    method SetHeight(h: real)
      modifies this, store
      ensures Model() == HeightSet(old(Model()), h)
    {
      StopAnimation();
      gridH := h;
    }

    method AnimateHeight(target: real, cb: Callback)
      modifies this, store
      ensures Model() == HeightAnimated(old(Model()), target, cb)
    {
      StopAnimation();
      anim := Animating(target, cb);
    }

    method AnimationFrame(h: real)
      requires anim.Animating? && Between(h, gridH, anim.target)
      modifies this
      ensures Model() == HeightFramed(old(Model()), h)
    {
      gridH := h;
    }

    method AnimationFinished()
      requires anim.Animating?
      modifies this, store
      ensures Model() == HeightFinished(old(Model()))
    {
      var a := anim;
      gridH := a.target;
      anim := AtRest;
      RunCallback(a.onDone, true);
    }

    method DragBegin()
      modifies this
      ensures Model() == DragBegun(old(Model()))
    {
      dragStartH := gridH;
      previewStarted := false;
      phase := Idle;
      progress := 0.0;
    }

    method DragUpdate(tx: real, ty: real)
      requires ValidCellSide(cell)
      modifies this, store
      ensures Model() == DragUpdated(old(Model()), cell, tx, ty)
    {
      var month, week := MonthGridH(cell), WeekGridH(cell);
      if dragStartH == month {
        if !previewStarted {
          if ToWeekGate(tx, ty) {
            previewStarted := true;
            phase := ToWeek;
          } else {
            return;
          }
        }
        var p := Clamp01(-ty / DRAG_RANGE);
        SetHeight(Lerp(month, week, p));
        progress := p;
        return;
      }
      if dragStartH == week {
        if !previewStarted {
          if ToMonthGate(tx, ty) {
            previewStarted := true;
            BeginToMonthPreview();
          } else {
            return;
          }
        }
        var p := Clamp01(ty / DRAG_RANGE);
        SetHeight(Lerp(week, month, p));
        progress := p;
      }
    }

    method DragEnd(ty: real, vy: real)
      requires ValidCellSide(cell)
      modifies this, store
      ensures Model() == DragEnded(old(Model()), cell, ty, vy)
    {
      var month, week := MonthGridH(cell), WeekGridH(cell);
      if dragStartH == month {
        var started := previewStarted;
        var commit := started && (-ty > DRAG_RANGE * COMMIT_SHARE || vy < -TOGGLE_VELOCITY);
        if commit {
          progress := 1.0;
          AnimateHeight(week, AfterCommitToWeek);
        } else {
          progress := 0.0;
          AnimateHeight(month, NoCallback);
          phase := Idle;
        }
        return;
      }
      var started := previewStarted;
      var commit := started && (ty > DRAG_RANGE * COMMIT_SHARE || vy > TOGGLE_VELOCITY || progress > 0.5);
      if commit {
        progress := 1.0;
        AnimateHeight(month, AfterCommitToMonth);
      } else {
        progress := 0.0;
        AnimateHeight(week, AfterCancelToWeek(started));
      }
    }

    method Toggle()
      requires ValidCellSide(cell)
      modifies this, store
      ensures Model() == Toggled(old(Model()), cell)
    {
      if store.viewMode == Month {
        phase := ToWeek;
        progress := 1.0;
        AnimateHeight(WeekGridH(cell), AfterToggleToWeek);
      } else {
        isDragPreview := true;
        phase := ToMonth;
        SwitchToMonth();
        progress := 1.0;
        AnimateHeight(MonthGridH(cell), AfterToggleToMonth);
      }
    }
  }
}
