# Calendar core of the BurnFit app, in Dafny

This project models the logic of the app's calendar feature: month and week
views, a horizontal pager of pages, and a vertical month/week transition. It
proves properties of that model. Rendering, gestures and animation timing are
reduced to the state they leave behind.

The model follows the source's own structure, one module per source file:

- **Dates.** `Gregorian` and `CalendarUtils` model the date arithmetic of
  `calendarUtils.ts`.
  - A date is a day number. Day 0 is Sunday 0000-01-02, so `getDay()` is `n % 7`.
  - `Gregorian.Normalize` is the carry that JavaScript's `Date` performs when
    it is given a day outside the month (`new Date(y, m, 0)`, negative day
    numbers, `setDate` past the month's end).
  - `CalendarUtils.BuildMonthMatrix` is the source's loop. It is proved to
    build `MonthMatrix`.
- **Pager.** `InfinitePager` models `useInfinitePager.ts`.
  - It keeps two windows of consecutive offsets (month and week), each with a
    center index, plus a scroll request that carries a sequence number.
  - Windows grow by a chunk near their edges.
  - A settled page moves the displayed month or week.
  - Pages are derived from the offsets.
  - Class `Pager` performs each operation in place and is proved equal to the
    state functions.
- **Vertical transition.** `VerticalTransition` models `useVerticalTransition.ts`.
  - It covers the pan callbacks (begin, update, end), the header toggle, and
    the completion callbacks of the grid-height animation.
  - Reanimated is modelled by its observable rules. A timed animation is its
    target plus a pending callback. Writing the height stops the running
    animation, whose callback then runs with `finished == false`.
  - Class `Transition` holds the shared values, the ref and the phase, and
    updates them in place.
- **Page grid and rows.** `PageGrid` and `RowAnimated` model `PageGrid.tsx`
  and `RowAnimated.tsx`.
  - The page's days are cut into week rows (`ChunkRows`, the source's loop).
  - The anchor date and its row are chosen.
  - The page lift and each row's opacity and offset are computed from the
    phase and the clamped, eased progress.
  - The easing is any function that maps [0, 1] into [0, 1].
    `Easing.EaseOutCubic` is proved to be one.
- **Container.** `CalendarContainer` models `CalendarContainer.tsx`.
  - It covers the calendar state, date selection, the view-mode effect, and
    the title date.
  - Every event runs its handler. If the view mode changed, the effect runs
    afterwards.
  - Class `Container` wires a `CalendarStore`, a `Transition` and a `Pager`
    together. Each of its methods is proved equal to `Step`.
- **Properties.** `PagerProperties`, `TransitionProperties` and
  `ContainerProperties` hold the lemmas about these models.

Two behaviours of the code are worth stating up front.

- **The view-mode effect with the drag-preview flag up.** The comment at
  `CalendarContainer.tsx:101-102` states the intent: while a drag preview
  from week to month is in flight, the effect skips its automatic height
  snap. The code instead sets the height straight to the week height
  (`CalendarContainer.tsx:112-113`). `ViewModeEffectAsWritten` models the
  code, and `StepAsWritten` uses it. The consequence is listed under
  Findings. `ViewModeEffect`, which `Step` and class `Container` use, is the
  corrected form that skips the snap, as that comment says.
- **A cancelled drag from week height.** The completion callback clears the
  drag-preview flag and reverts the mode to week only when
  `finished && started` (`useVerticalTransition.ts:205-211`). The phase
  returns to idle on every path, and a reverted mode keeps the selected date
  and the week anchor as they were
  (`TransitionProperties.CancelToWeekCompletes`).

## Model

| member | source | states |
|---|---|---|
| Gregorian.DaysInMonth | src/features/Calendar/calendarUtils.ts:19 | A month has 28 to 31 days, and 29 exactly for February of a leap year. |
| Gregorian.Normalize | src/features/Calendar/calendarUtils.ts:23-24 | `new Date(y, m, k)` for any integer day `k` (0, negative, or past the month's end) names a valid civil date `k - 1` days after the first of (y, m). |
| Gregorian.CivilOf | src/features/Calendar/calendarUtils.ts:13 | Every day number has a valid civil date whose day number it is. |
| Gregorian.CivilOfDayNumber | src/features/Calendar/calendarUtils.ts:13 | `CivilOf` inverts `DayNumber` on valid civil dates, so year, month and day read back exactly. |
| Gregorian.DayNumberInjective | src/features/Calendar/calendarUtils.ts:51-58 | Distinct valid civil dates are distinct days, which is what comparing year, month and day relies on. |
| Gregorian.DaysBeforeYearClosedForm | src/features/Calendar/calendarUtils.ts:19 | The year lengths add up to the usual leap-year closed form (365 a year, plus the years divisible by 4, minus those divisible by 100, plus those divisible by 400). |
| Gregorian.KnownWeekdays | src/features/Calendar/calendarUtils.ts:18 | `getDay()` agrees with the real calendar: 2000-01-01 is a Saturday, 2024-02-25 a Sunday, 2024-03-15 a Friday. |
| CalendarUtils.NormalizeYearMonth | src/features/Calendar/calendarUtils.ts:17 | An out-of-range month carries into the year: the result is a real month with the same month count. |
| CalendarUtils.MakeDate | src/features/Calendar/calendarUtils.ts:17-24 | `new Date(y, m, k)`: the first of the carried month, moved by `k - 1` days. `MakeDateNormalizes` ties it to the civil-date carry. |
| CalendarUtils.MakeDateNormalizes | src/features/Calendar/calendarUtils.ts:17-24 | `new Date(y, m, k)` is the civil date obtained by carrying day `k` of the carried month through the months. |
| CalendarUtils.GetYearMonthFrom | src/features/Calendar/calendarUtils.ts:12-14 | The result is a real month, and the date lies inside it. |
| CalendarUtils.GetYearMonthFromExact | src/features/Calendar/calendarUtils.ts:12-14 | A date's month is unique: any month containing the date is the one returned. |
| CalendarUtils.FirstOfMonthYearMonth | src/features/Calendar/calendarUtils.ts:12-14 | `getYearMonthFrom` of the first of a month is that month. |
| CalendarUtils.DayZeroIsMonthLength | src/features/Calendar/calendarUtils.ts:19 | `new Date(y, m + 1, 0).getDate()` is the number of days of month (y, m). |
| CalendarUtils.DaysInMonthOf | src/features/Calendar/calendarUtils.ts:19 | Computed the source's way, the value is the month's length. |
| CalendarUtils.CeilDiv7 | src/features/Calendar/calendarUtils.ts:20 | `Math.ceil(x / 7)`: the least `r` with `7r >= x`. |
| CalendarUtils.MonthMatrix | src/features/Calendar/calendarUtils.ts:16-27 | The month grid: `ceil((firstWeekday + daysInMonth) / 7) * 7` consecutive days from the Sunday on or before the first of the month. Its shape is stated by `MonthMatrixShape`, `MonthMatrixConsecutive` and `MonthMatrixCellMonth`. |
| CalendarUtils.BuildMonthMatrix | src/features/Calendar/calendarUtils.ts:16-27 | The loop pushing `new Date(y, m, i - firstWeekday + 1)` builds exactly the month matrix. |
| CalendarUtils.MonthMatrixShape | src/features/Calendar/calendarUtils.ts:17-25 | For any year and month the matrix is whole weeks, 28 to 42 cells, starting on a Sunday. The first of the month is at index `firstWeekday`. Every day of the month appears, exactly once since the cells increase strictly. Fewer than 7 padding cells sit on either side. |
| CalendarUtils.MonthMatrixConsecutive | src/features/Calendar/calendarUtils.ts:22-25 | Cell `i` is the day `i` days after the Sunday on or before the first of the month. |
| CalendarUtils.MonthMatrixCellMonth | src/features/Calendar/calendarUtils.ts:18-24 | A cell belongs to the month if and only if it lies between the leading and the trailing padding. |
| CalendarUtils.SetDateShifts | src/features/Calendar/calendarUtils.ts:41 | `setDate(getDate() + k)` on a copy moves the date by exactly `k` days, across month and year ends. |
| CalendarUtils.SundayOnOrBefore | src/features/Calendar/calendarUtils.ts:32 | `d - getDay()` is a Sunday, at or before `d`, less than 7 days earlier. |
| CalendarUtils.WeekStartSunday | src/features/Calendar/calendarUtils.ts:29-34 | The result is a Sunday with `s <= d < s + 7`. |
| CalendarUtils.WeekStartSundayExact | src/features/Calendar/calendarUtils.ts:29-34 | That Sunday is unique: any Sunday within the 7 days up to `d` is the one returned. |
| CalendarUtils.WeekStartSundayIdempotent | src/features/Calendar/calendarUtils.ts:29-34 | Applied to its own result it gives the same Sunday. |
| CalendarUtils.BuildWeekDays | src/features/Calendar/calendarUtils.ts:36-44 | Seven consecutive days, the first being the start. |
| CalendarUtils.WeekDaysFromSunday | src/features/Calendar/calendarUtils.ts:36-44 | From a Sunday, day `i` has weekday `i`. A date is in the week if and only if its week starts on that Sunday. |
| CalendarUtils.IsSameDay | src/features/Calendar/calendarUtils.ts:51-58 | True if and only if both dates are present and are the same day. |
| CalendarUtils.IsSameDayProperties | src/features/Calendar/calendarUtils.ts:51-58 | False when either date is null, reflexive on present dates, and symmetric. |
| InfinitePager.InitialOffsets | src/features/Calendar/hooks/useInfinitePager.ts:23-24 | `2c + 1` consecutive integers from `-c`, with 0 at index `c`. |
| InfinitePager.ExtendedEnd | src/features/Calendar/hooks/useInfinitePager.ts:67-73 | `chunk` values are appended, the old ones are kept as a prefix, and consecutiveness is preserved. |
| InfinitePager.ExtendedStart | src/features/Calendar/hooks/useInfinitePager.ts:74-80 | `chunk` values are prepended, the old ones are kept as a suffix, and consecutiveness is preserved. |
| InfinitePager.InitialPager | src/features/Calendar/hooks/useInfinitePager.ts:43-57 | Both windows are valid, each centered on offset 0 at index `chunk` (24 months, 26 weeks), and no request is pending. |
| InfinitePager.ScrollRequested | src/features/Calendar/hooks/useInfinitePager.ts:59-61 | The windows are unchanged, the request carries the given index and animation, and its sequence number is greater than the previous request's. |
| InfinitePager.ShiftMonth | src/features/Calendar/hooks/useInfinitePager.ts:158-162 | The month `delta` months on has month count `MonthCount(ym) + delta`, with year carry. |
| InfinitePager.ShiftMonthAsWritten | src/features/Calendar/hooks/useInfinitePager.ts:159-162 | The source's steps (`new Date(y, m, 1)`, then `setMonth(getMonth() + delta)` on a copy, then `getYearMonthFrom`) give exactly `ShiftMonth(ym, delta)`. |
| InfinitePager.SetMonthFromFirst | src/features/Calendar/hooks/useInfinitePager.ts:159-161 | `setMonth(getMonth() + delta)` on the first of a month gives the first of the month `delta` months on. |
| InfinitePager.ShiftWeek | src/features/Calendar/hooks/useInfinitePager.ts:165-167 | The result is a Sunday between `7·delta - 6` and `7·delta` days from the anchor. |
| InfinitePager.MonthPages | src/features/Calendar/hooks/useInfinitePager.ts:195-205 | One page per offset. Page `i` shows the month `offsets[i] - centerVal` from the displayed one. |
| InfinitePager.WeekPages | src/features/Calendar/hooks/useInfinitePager.ts:206-219 | One page per offset. Page `i` shows the week `offsets[i] - centerVal` from the anchor's. |
| InfinitePager.Extended | src/features/Calendar/hooks/useInfinitePager.ts:63-116 | `extend(mode, dir)`: the end grows by the chunk with the center index kept; the start grows by the chunk, the center index moves by the chunk, and a non-animated scroll to it is requested. Stated by `ExtendEndKeepsWindow` and `ExtendStartKeepsCenterOffset`. |
| InfinitePager.PrevPressed | src/features/Calendar/hooks/useInfinitePager.ts:127-134 | `onPressPrev`: an animated scroll request to the page before the center, not below 0. Stated by `PressTargets`. |
| InfinitePager.NextPressed | src/features/Calendar/hooks/useInfinitePager.ts:136-144 | `onPressNext`: an animated scroll request to the page after the center, not past the last. Stated by `PressTargets`. |
| InfinitePager.MomentumEnded | src/features/Calendar/hooks/useInfinitePager.ts:146-192 | `handlePageMomentumEnd`: a settled page other than the center shifts the month or week by the offset difference and becomes the center; near an edge the window grows. Stated by `MomentumEndFollowsPage` and `MomentumEndGrowth`. |
| InfinitePager.CenterValue | src/features/Calendar/hooks/useInfinitePager.ts:197 | `offsets[centerIndex] ?? 0`: the center offset, 0 when the index is out of range. |
| InfinitePager.Pages | src/features/Calendar/hooks/useInfinitePager.ts:194-221 | The `pages` derivation for the current mode: one month or week page per offset, shifted by its distance from the center offset. Stated by `PagesShowMonths` and `PagesShowWeeks`. |
| InfinitePager.Pager.constructor | src/features/Calendar/hooks/useInfinitePager.ts:43-57 | The hook's state on mount is `InitialPager()`. |
| InfinitePager.Pager.RequestScroll | src/features/Calendar/hooks/useInfinitePager.ts:59-61 | The new state is `ScrollRequested` of the old one. |
| InfinitePager.Pager.Extend | src/features/Calendar/hooks/useInfinitePager.ts:63-116 | The new state is `Extended` of the old one: the end grows; or the start grows, the center index moves by the chunk, and a non-animated scroll goes to it. |
| InfinitePager.Pager.PressPrev | src/features/Calendar/hooks/useInfinitePager.ts:127-134 | The new state is `PrevPressed` of the old one. |
| InfinitePager.Pager.PressNext | src/features/Calendar/hooks/useInfinitePager.ts:136-144 | The new state is `NextPressed` of the old one. |
| InfinitePager.Pager.MomentumEnd | src/features/Calendar/hooks/useInfinitePager.ts:146-192 | The new state, month and week anchor are `MomentumEnded` of the old ones. |
| PagerProperties.SameMonthCount | src/features/Calendar/hooks/useInfinitePager.ts:162 | Two real months with the same month count are equal, so a month is determined by its count. |
| PagerProperties.ExtendEndKeepsWindow | src/features/Calendar/hooks/useInfinitePager.ts:67-73 | Growing the end appends `chunk` values ending at `last + chunk` and keeps the old offsets, the center and the request. The other window is untouched. |
| PagerProperties.ExtendStartKeepsCenterOffset | src/features/Calendar/hooks/useInfinitePager.ts:74-87 | Growing the start prepends `chunk` values from `first - chunk` and moves the center by `chunk`, so the center offset is unchanged. A non-animated request goes to the new center. The other window is untouched. |
| PagerProperties.PressTargets | src/features/Calendar/hooks/useInfinitePager.ts:127-144 | Prev asks for an animated scroll to `max(0, center - 1)`, next to `min(len - 1, center + 1)`. Each uses a fresh sequence number, and the windows do not move. |
| PagerProperties.MomentumEndFollowsPage | src/features/Calendar/hooks/useInfinitePager.ts:151-170 | The settled page becomes the center, and the other window is untouched. At the old center nothing moves. In month mode the month moves by `delta` months. In week mode the anchor becomes its week's Sunday plus `7·delta` days. |
| PagerProperties.MomentumEndGrowth | src/features/Calendar/hooks/useInfinitePager.ts:173-178 | The end grows if and only if `nextIndex >= len - 6`. Otherwise the start grows if and only if `nextIndex <= 6`. Never both, and in between nothing grows. |
| PagerProperties.PagesShowMonths | src/features/Calendar/hooks/useInfinitePager.ts:194-205 | In month mode `pages` has one page per offset. Page `i` is keyed by its offset, and no other page shares the key. It shows the grid and month index of the month `offsets[i] - offsets[center]` months on. The center page shows the displayed month. |
| PagerProperties.PagesShowWeeks | src/features/Calendar/hooks/useInfinitePager.ts:206-220 | In week mode `pages` has one page per offset. Page `i` is keyed by its offset, and no other page shares the key. It shows the seven days from the Sunday `offsets[i] - offsets[center]` weeks after the anchor's, labelled with that Sunday's month. The center page holds the anchor. |
| PagerProperties.MonthPageKeysUnique | src/features/Calendar/hooks/useInfinitePager.ts:199-204 | Page `i` is keyed by `offsets[i]`, and no two month pages share a key. |
| PagerProperties.WeekPageKeysUnique | src/features/Calendar/hooks/useInfinitePager.ts:210-218 | Page `i` is keyed by `offsets[i]`, and no two week pages share a key. |
| PagerProperties.MonthPageShows | src/features/Calendar/hooks/useInfinitePager.ts:199-204 | Page `i` shows the matrix and month index of the month `i - center` months on. The center page shows the displayed month. |
| PagerProperties.WeekPageShows | src/features/Calendar/hooks/useInfinitePager.ts:210-218 | Page `i` shows the seven days from the Sunday `i - center` weeks after the anchor's. The center page contains the anchor. |
| PagerProperties.ShiftMonthZero | src/features/Calendar/hooks/useInfinitePager.ts:197-203 | Shifting a real month by 0 gives the month back. |
| PagerProperties.MonthPagesRecentered | src/features/Calendar/hooks/useInfinitePager.ts:194-205 | A month page depends only on its offset relative to the displayed month, not on how the window is centered. |
| PagerProperties.WeekPagesRecentered | src/features/Calendar/hooks/useInfinitePager.ts:206-219 | A week page depends only on its offset relative to the anchor's week, not on how the window is centered. |
| PagerProperties.SettlingKeepsMonthPages | src/features/Calendar/hooks/useInfinitePager.ts:146-205 | After a momentum end in month mode, every old offset that is still in the window still shows the same page. |
| PagerProperties.SettlingKeepsWeekPages | src/features/Calendar/hooks/useInfinitePager.ts:146-219 | After a momentum end in week mode, every old offset that is still in the window still shows the same page. |
| VerticalTransition.SwitchedToWeek | src/features/Calendar/hooks/useVerticalTransition.ts:67-70 | `switchToWeek`: the selected date, if any, becomes the week anchor, and the mode becomes week. |
| VerticalTransition.SwitchedToMonth | src/features/Calendar/hooks/useVerticalTransition.ts:72-76 | `switchToMonth`: the mode becomes month and the displayed month is a real month that holds the week anchor; the anchor and the selection are kept. |
| VerticalTransition.AfterCallback | src/features/Calendar/hooks/useVerticalTransition.ts:151-211 | What each completion callback does, given whether its animation finished: switch to week, clear the preview flag, revert a cancelled preview, and set the phase to idle, each as its callback says. |
| VerticalTransition.Superseded | src/features/Calendar/hooks/useVerticalTransition.ts:120 | A write to the grid height stops the running animation, whose callback runs with `finished == false`. `SupersededKeepsCalendar` states what survives. |
| VerticalTransition.HeightSet | src/features/Calendar/hooks/useVerticalTransition.ts:120 | `gridH.value = h`: the running animation is superseded, then the height is `h`. Stated by `HeightWritesKeepSound`. |
| VerticalTransition.HeightAnimated | src/features/Calendar/hooks/useVerticalTransition.ts:151-160 | `gridH.value = withTiming(target, …, cb)`: the running animation is superseded, then an animation to `target` with callback `cb` runs. Stated by `HeightWritesKeepSound`. |
| VerticalTransition.HeightFramed | src/features/Calendar/hooks/useVerticalTransition.ts:151-153 | One frame of the running animation: the height moves to a value between the current height and the target. Stated by `AnimationKeepsSound`. |
| VerticalTransition.HeightFinished | src/features/Calendar/hooks/useVerticalTransition.ts:154-159 | The running animation reaches its target and its callback runs with `finished == true`. Stated by `AnimationKeepsSound`. |
| VerticalTransition.DragBegun | src/features/Calendar/hooks/useVerticalTransition.ts:98-103 | Pan `onBegin`: the drag remembers the current height, and the preview, phase and progress are reset. Stated by `DragBeginKeepsSound`. |
| VerticalTransition.DragUpdated | src/features/Calendar/hooks/useVerticalTransition.ts:104-136 | Pan `onUpdate`: from month or week height, once the gate opens, the height follows the clamped drag share and the progress is that share. Stated by `DragUpdateGate`, `DragUpdateKeepsSound` and `ToMonthPreviewStarts`. |
| VerticalTransition.DragEnded | src/features/Calendar/hooks/useVerticalTransition.ts:137-214 | Pan `onEnd`: commit or snap back to the month or week height with the matching callback. Stated by `DragEndDecision` and the four `…Completes`/`…Settles` lemmas. |
| VerticalTransition.Toggled | src/features/Calendar/hooks/useVerticalTransition.ts:227-262 | `handleToggleViewMode`: from month, animate to week height and switch on completion; from week, switch to month at once, raise the preview flag, and animate to month height. Stated by `ToggleFromMonth` and `ToggleFromWeek`. |
| VerticalTransition.Transition.constructor | src/features/Calendar/hooks/useVerticalTransition.ts:55-65 | The initial values: month height, at rest, progress 0, idle, flag down. |
| VerticalTransition.Transition.SwitchToWeek | src/features/Calendar/hooks/useVerticalTransition.ts:67-70 | The calendar becomes `SwitchedToWeek` of the old one: the anchor is the selected date if any, else the previous anchor. The mode becomes week. |
| VerticalTransition.Transition.SwitchToMonth | src/features/Calendar/hooks/useVerticalTransition.ts:72-76 | The calendar becomes `SwitchedToMonth` of the old one: the month of the week anchor, in month mode. |
| VerticalTransition.Transition.BeginToMonthPreview | src/features/Calendar/hooks/useVerticalTransition.ts:78-82 | The flag is raised, the phase becomes `toMonth`, and the calendar switches to month. |
| VerticalTransition.Transition.RunCallback | src/features/Calendar/hooks/useVerticalTransition.ts:84-90 | The state becomes `AfterCallback` of the old one for each completion callback and `finished` flag. |
| VerticalTransition.Transition.StopAnimation | src/features/Calendar/hooks/useVerticalTransition.ts:151-160 | The running animation stops, and its callback runs unfinished. |
| VerticalTransition.Transition.SetHeight | src/features/Calendar/hooks/useVerticalTransition.ts:120 | `gridH.value = h`: the animation stops, then the height is written. |
| VerticalTransition.Transition.AnimateHeight | src/features/Calendar/hooks/useVerticalTransition.ts:151-160 | `gridH.value = withTiming(target, …, cb)`: the old animation stops, then the new one starts. |
| VerticalTransition.Transition.AnimationFrame | src/features/Calendar/hooks/useVerticalTransition.ts:57 | A frame moves the height towards the target. |
| VerticalTransition.Transition.AnimationFinished | src/features/Calendar/hooks/useVerticalTransition.ts:154-159 | The height reaches the target, and the callback runs finished. |
| VerticalTransition.Transition.DragBegin | src/features/Calendar/hooks/useVerticalTransition.ts:98-103 | The state becomes `DragBegun` of the old one. |
| VerticalTransition.Transition.DragUpdate | src/features/Calendar/hooks/useVerticalTransition.ts:104-136 | The state becomes `DragUpdated` of the old one. |
| VerticalTransition.Transition.DragEnd | src/features/Calendar/hooks/useVerticalTransition.ts:137-214 | The state becomes `DragEnded` of the old one. |
| VerticalTransition.Transition.Toggle | src/features/Calendar/hooks/useVerticalTransition.ts:227-262 | The state becomes `Toggled` of the old one. |
| Easing.Clamp01 | src/features/Calendar/hooks/useVerticalTransition.ts:119 | `Math.max(0, Math.min(1, x))` lies in [0, 1]: `x` inside, 0 below, 1 above. |
| Easing.EaseOutCubic | src/features/Calendar/components/RowAnimated.tsx:33 | `Easing.out(Easing.cubic)`: `1 - (1 - t)^3`. `EaseOutCubicIsUnit` proves it maps [0, 1] into [0, 1] from 0 to 1. |
| Easing.EaseOutCubicIsUnit | src/features/Calendar/components/RowAnimated.tsx:33 | `Easing.out(Easing.cubic)` maps [0, 1] into [0, 1], with 0 to 0 and 1 to 1. |
| TransitionProperties.LerpBetween | src/features/Calendar/hooks/useVerticalTransition.ts:119-121 | Interpolating by a share in [0, 1] stays between the two heights. |
| TransitionProperties.SupersededKeepsCalendar | src/features/Calendar/hooks/useVerticalTransition.ts:237-259 | Stopping an animation leaves the calendar, heights, progress and preview alone. It can only lower the flag and return the phase to idle. |
| TransitionProperties.InitiallySound | src/features/Calendar/hooks/useVerticalTransition.ts:55-65 | The hook starts with the heights in range. |
| TransitionProperties.DragBeginKeepsSound | src/features/Calendar/hooks/useVerticalTransition.ts:98-103 | Drag begin records the current height as the start, clears `previewStarted`, and sets idle and progress 0. The calendar, the height and the running animation are unchanged, and the heights stay in range. |
| TransitionProperties.DragUpdateKeepsSound | src/features/Calendar/hooks/useVerticalTransition.ts:119-121 | During a started drag, progress is `clamp(∓ty / 180)` and the height is that share of the way to the other height, so it stays in [week, month]. The same holds from week height (lines 132-134). |
| TransitionProperties.DragUpdateGate | src/features/Calendar/hooks/useVerticalTransition.ts:108-131 | Before the preview starts, an update changes nothing if and only if the gate of its direction is closed. A started preview stays started. A drag from any other height is inert. |
| TransitionProperties.ToMonthPreviewStarts | src/features/Calendar/hooks/useVerticalTransition.ts:126-129 | Opening the gate from week height raises the flag, enters `toMonth` and switches to the month containing the week anchor. Selection and anchor are kept. |
| TransitionProperties.DragEndDecision | src/features/Calendar/hooks/useVerticalTransition.ts:137-213 | From month height the grid heads for week height if and only if the drag commits. From elsewhere it heads for month height if and only if it commits. A drag whose preview never started never commits and never changes the calendar. |
| TransitionProperties.CommitToWeekCompletes | src/features/Calendar/hooks/useVerticalTransition.ts:146-160 | A finished commit from month height gives week mode, anchored on the selected date (else the previous anchor), at week height, idle. |
| TransitionProperties.CommitToMonthCompletes | src/features/Calendar/hooks/useVerticalTransition.ts:182-196 | A finished commit from week height lowers the flag and leaves the calendar as it is (month), at month height, idle. |
| TransitionProperties.CancelToWeekCompletes | src/features/Calendar/hooks/useVerticalTransition.ts:197-212 | A cancel from week height ends idle whether finished or stopped. When finished it is at week height. If its preview had started, it reverts to week mode and lowers the flag. |
| TransitionProperties.CancelToMonthSettles | src/features/Calendar/hooks/useVerticalTransition.ts:161-171 | A cancel from month height heads back to month height, resets progress and is idle at once. |
| TransitionProperties.MidAnimationDragIsInert | src/features/Calendar/hooks/useVerticalTransition.ts:112-125 | A drag that begins between the two heights is inert on update. On release it falls into the week-height cancel and reaches week height without touching the calendar. |
| TransitionProperties.ToggleFromMonth | src/features/Calendar/hooks/useVerticalTransition.ts:228-244 | The toggle from month animates to week height in `toWeek`. When finished, it gives week mode anchored on the selection, idle and progress 0. |
| TransitionProperties.ToggleFromWeek | src/features/Calendar/hooks/useVerticalTransition.ts:245-261 | The toggle from week raises the flag, enters `toMonth` and switches to the anchor's month before animating. Its completion lowers the flag and ends idle, finished or not. |
| TransitionProperties.AnimationKeepsSound | src/features/Calendar/hooks/useVerticalTransition.ts:57 | Frames and the end of an animation keep the heights in range. |
| TransitionProperties.HeightWritesKeepSound | src/features/Calendar/hooks/useVerticalTransition.ts:151-160 | Writing a height in range, or animating to either fixed height, keeps the heights in range. |
| CalendarConstants.MonthGridH | src/features/Calendar/calendarConstants.ts:11-12 | `MONTH_GRID_H` (six rows and five gaps) is greater than `WEEK_GRID_H`. |
| CalendarState.InitialCalendar | src/features/Calendar/CalendarContainer.tsx:53-59 | Month mode, today selected and anchoring the week, showing the month that contains today. |
| CalendarState.CalendarStore.constructor | src/features/Calendar/CalendarContainer.tsx:53-59 | The state cells start as `InitialCalendar(today)`. |
| PageGrid.Chunks | src/features/Calendar/components/PageGrid.tsx:47-53 | `page.days` cut into slices of seven. `ChunkRows` is the source loop proved to build it; `ChunksShape` states its shape. |
| PageGrid.ChunksShape | src/features/Calendar/components/PageGrid.tsx:47-53 | `ceil(len / 7)` rows. Row `k` is the days `7k` up to `7k + 7` (or the end), and the rows concatenate back to the days. |
| PageGrid.ChunkRows | src/features/Calendar/components/PageGrid.tsx:47-53 | The loop pushing `slice(i, i + 7)` builds exactly `Chunks(days)`. |
| PageGrid.SelectedRowIndex | src/features/Calendar/components/PageGrid.tsx:58-60 | The first row holding a day that is the same day as the anchor, or -1 if and only if no row holds one. |
| PageGrid.AnchorForRow | src/features/Calendar/components/PageGrid.tsx:55-56 | `anchorForRow`: the week anchor during `toMonth`, the selected date otherwise. There is no anchor exactly when the phase is not `toMonth` and no date is selected. |
| PageGrid.NoAnchorNoRow | src/features/Calendar/components/PageGrid.tsx:55-60 | With a null anchor the index is -1. |
| PageGrid.RowHasIff | src/features/Calendar/components/PageGrid.tsx:59 | A row holds the anchor if and only if the anchor is present and is one of its days. |
| PageGrid.FirstRowHolding | src/features/Calendar/components/PageGrid.tsx:59 | `findIndex` returns the first row holding the anchor. |
| PageGrid.ConsecutiveRow | src/features/Calendar/components/PageGrid.tsx:47-53 | On a page of consecutive days, a date is in row `k` if and only if it is `7k` to `7k + 6` days after the first day and on the page. |
| PageGrid.AnchorRowOfConsecutiveDays | src/features/Calendar/components/PageGrid.tsx:47-60 | On a page of consecutive days, a date's row is its distance from the first day in whole weeks. |
| PageGrid.WholeWeekRows | src/features/Calendar/components/PageGrid.tsx:47-53 | Days that fill whole weeks give only full rows. |
| PageGrid.MonthPageRows | src/features/Calendar/components/PageGrid.tsx:47-60 | A month page has 4 to 6 full rows. A date of the month is in row `(firstWeekday + day - 1) / 7`. |
| PageGrid.RowOfConsecutiveDays | src/features/Calendar/components/PageGrid.tsx:47-60 | On a page of consecutive days, `findIndex` finds a date in the row counted directly (whole weeks from the first day), and returns -1 for a date off the page. |
| PageGrid.HeldRow | src/features/Calendar/components/PageGrid.tsx:47-60 | The held row, `selectedRowIndex`: `findIndex` over the page rows of the `anchorForRow` date. It is -1 or the index of a row of the page. `HeldRowRule` and `HeldRowMotion` state which row it is. |
| PageGrid.HeldRowRule | src/features/Calendar/components/PageGrid.tsx:55-60 | On a page of consecutive days, the held row is the week anchor's row during `toMonth` and the selected date's row otherwise. With no date selected outside `toMonth`, no row is held. |
| PageGrid.HeldRowMotion | src/features/Calendar/components/PageGrid.tsx:47-76 | From the page's days through `anchorForRow` and `findIndex` to the styles: during `toMonth` on a page holding the week anchor, the anchor's row stays still and opaque, and the page lifts by at most that row's top. With no date selected outside `toMonth`, the page does not lift. |
| PageGrid.LiftAt | src/features/Calendar/components/PageGrid.tsx:63-75 | The page lift for an eased progress: `-yTop * eased` folding, `-yTop * (1 - eased)` unfolding, 0 otherwise. The page is in place at the start of a fold and at the end of an unfold. |
| PageGrid.ContentLift | src/features/Calendar/components/PageGrid.tsx:62-76 | `contentLiftStyle`: the lift for the progress clamped to [0, 1] (0 when absent), then eased. Stated by `ContentLiftBounds` and `AnchorRowLandsOnTop`. |
| PageGrid.ContentLiftBounds | src/features/Calendar/components/PageGrid.tsx:62-76 | Without an anchor row, or outside a transition, the lift is 0. Otherwise it lies in `[-yTop, 0]` for any easing that keeps [0, 1]. |
| PageGrid.LiftPhasesMirror | src/features/Calendar/components/PageGrid.tsx:69-74 | The lift at eased `e` of `toMonth` equals the lift at `1 - e` of `toWeek`. |
| PageGrid.AnchorRowLandsOnTop | src/features/Calendar/components/PageGrid.tsx:62-74 | At the end of a fold the anchor row's laid-out top plus the page lift is 0: it sits at the top of the grid, unmoved and fully opaque. At the end of an unfold the page is back in place. |
| RowAnimated.RowStyleAt | src/features/Calendar/components/RowAnimated.tsx:34-58 | A row's opacity and offset for an eased progress: the anchor row stays still and opaque; other rows fade out and rise by `LIFT_PX` folding, fade in and drop from `DROP_PX` unfolding. Stated by `RowMotionBounds` and `RowPhasesMirror`. |
| RowAnimated.RowMotion | src/features/Calendar/components/RowAnimated.tsx:31-59 | The row style for the progress clamped to [0, 1] (0 when absent), then eased. Stated by `RowMotionBounds` and `RowMotionAtEnd`. |
| RowAnimated.RowMotionBounds | src/features/Calendar/components/RowAnimated.tsx:31-59 | The anchor row never fades or moves, and in idle or without a phase no row does. Opacity stays in [0, 1] and the offset in [-10, 0] for any easing that keeps [0, 1]. |
| RowAnimated.RowPhasesMirror | src/features/Calendar/components/RowAnimated.tsx:36-56 | A row at eased `e` of `toMonth` looks as it does at `1 - e` of `toWeek`. |
| RowAnimated.RowMotionAtEnd | src/features/Calendar/components/RowAnimated.tsx:40-55 | A completed fold hides a non-anchor row 10 points up. A completed unfold shows it in place. |
| RowAnimated.RowMarginTop | src/features/Calendar/components/RowAnimated.tsx:65 | Every row but the first has `ROW_GAP` above it. |
| RowAnimated.RowTop | src/features/Calendar/components/RowAnimated.tsx:64-77 | The top of a row within the page: the cells and margins above it. It is at least one gap per row above it, and `RowTopIsYTop` proves it equals `k * RowHeight`. |
| RowAnimated.RowTopIsYTop | src/features/Calendar/components/RowAnimated.tsx:65 | With one-cell rows and a `ROW_GAP` margin above every row but the first, row `k` starts `k` row heights below the page top, which is the `yTop` the page lift uses (PageGrid.tsx:66-67). |
| RowAnimated.MonthRowsFillGrid | src/features/Calendar/components/RowAnimated.tsx:65 | Six rows laid out with those margins fill `MONTH_GRID_H` exactly. |
| RowAnimated.StackOrder | src/features/Calendar/components/RowAnimated.tsx:66 | `zIndex`/`elevation`: 3 for the row at the anchor index, 1 otherwise. Stated by `StackOrderRule`. |
| RowAnimated.StackOrderRule | src/features/Calendar/components/RowAnimated.tsx:66 | For every row index, the stacking order is 3 if and only if the row is the anchor row, and 1 otherwise, so with index -1 no row is raised. |
| CalendarContainer.DateSelected | src/features/Calendar/CalendarContainer.tsx:139-145 | `handleSelectDate`: the date is selected, and in week mode it also becomes the week anchor. Stated by `SelectionRule`. |
| CalendarContainer.Handled | src/features/Calendar/CalendarContainer.tsx:61-145 | The handler each event reaches, as the container wires the two hooks and `handleSelectDate`: selection, toggle, pan, animation frames and end, prev/next, settled page. Stated by `HandledKeepsValid` and `ModeChangesOnlyBy`. |
| CalendarContainer.ViewModeEffectAsWritten | src/features/Calendar/CalendarContainer.tsx:104-128 | The view-mode effect as written: a non-animated scroll to the center page, then with the preview flag up the height is set straight to the week height. Used by `StepAsWritten`; see Findings. |
| CalendarContainer.ViewModeEffect | src/features/Calendar/CalendarContainer.tsx:101-128 | The view-mode effect as the comment at lines 101-102 intends: the same, except that the snap is skipped while the preview flag is up. Stated by `EffectOutcome` and `EffectKeepsValid`. |
| CalendarContainer.Step | src/features/Calendar/CalendarContainer.tsx:104-145 | An event: its handler, then the corrected effect when the view mode changed. Stated by `StepKeepsValid` and the `ContainerProperties` lemmas. |
| CalendarContainer.StepAsWritten | src/features/Calendar/CalendarContainer.tsx:104-128 | The same with the effect as written. `ToggleToMonthAsWritten` shows the toggle from week it breaks. |
| CalendarContainer.TitleDate | src/features/Calendar/CalendarContainer.tsx:147-153 | The date the title names: the Sunday of the anchor's week, or the first of the displayed month. Stated by `TitleRule`. |
| CalendarContainer.EffectKeepsValid | src/features/Calendar/CalendarContainer.tsx:104-128 | Both forms of the view-mode effect keep the windows valid, the month real and the heights in range. |
| CalendarContainer.HandledKeepsValid | src/features/Calendar/CalendarContainer.tsx:139-145 | Every handler (selection, toggle, pan, animation, paging) keeps the world valid. |
| CalendarContainer.StepKeepsValid | src/features/Calendar/CalendarContainer.tsx:104-145 | A handler followed by the effect keeps the world valid. |
| CalendarContainer.Container.constructor | src/features/Calendar/CalendarContainer.tsx:53-99 | Mount builds the store, controller and pager, runs the effect once, and reaches `InitialWorld`. |
| CalendarContainer.Container.RunViewModeEffect | src/features/Calendar/CalendarContainer.tsx:104-128 | The new world is `ViewModeEffect` of the old one: the corrected effect, which differs from lines 111-113 only while the drag-preview flag is up in month mode (see Left out). |
| CalendarContainer.Container.SelectDate | src/features/Calendar/CalendarContainer.tsx:139-145 | Valid, and equal to `Step` with the event. |
| CalendarContainer.Container.Toggle | src/features/Calendar/hooks/useVerticalTransition.ts:227-262 | Valid, and equal to `Step` with the event, whose view-mode effect is the corrected one (see Left out). |
| CalendarContainer.Container.PanBegin | src/features/Calendar/hooks/useVerticalTransition.ts:98-103 | Valid, and equal to `Step` with the event. |
| CalendarContainer.Container.PanUpdate | src/features/Calendar/hooks/useVerticalTransition.ts:104-136 | Valid, and equal to `Step` with the event, whose view-mode effect is the corrected one (see Left out). |
| CalendarContainer.Container.PanEnd | src/features/Calendar/hooks/useVerticalTransition.ts:137-214 | Valid, and equal to `Step` with the event. |
| CalendarContainer.Container.HeightFrame | src/features/Calendar/hooks/useVerticalTransition.ts:57 | Valid, and equal to `Step` with the event. |
| CalendarContainer.Container.HeightDone | src/features/Calendar/hooks/useVerticalTransition.ts:154-159 | Valid, and equal to `Step` with the event. |
| CalendarContainer.Container.PressPrev | src/features/Calendar/hooks/useInfinitePager.ts:127-134 | Valid, and equal to `Step` with the event. |
| CalendarContainer.Container.PressNext | src/features/Calendar/hooks/useInfinitePager.ts:136-144 | Valid, and equal to `Step` with the event. |
| CalendarContainer.Container.PageMomentumEnd | src/features/Calendar/hooks/useInfinitePager.ts:146-192 | Valid, and equal to `Step` with the event. |
| ContainerProperties.MountState | src/features/Calendar/CalendarContainer.tsx:53-59 | On mount: today's month in month mode with today selected and anchoring the week. The grid animates to month height, both windows are initial, and a non-animated request goes to the month center. |
| ContainerProperties.SelectionRule | src/features/Calendar/CalendarContainer.tsx:139-145 | Selection always sets the date. It moves the anchor in week mode only. Nothing else changes, and no effect runs. |
| ContainerProperties.ModeChangesOnlyBy | src/features/Calendar/CalendarContainer.tsx:104 | Only a toggle, a drag update or an animation's end can change the mode. A toggle changes it if and only if it starts from week. |
| ContainerProperties.EffectOutcome | src/features/Calendar/CalendarContainer.tsx:104-128 | The effect always asks for a non-animated scroll to the mode's center and leaves the calendar and windows alone. In week mode it animates to week height and resets progress. In month mode it animates to month height unless the flag is up. With the flag up, the corrected form leaves the screen as it is, and the form as written sets week height and stops any running animation. |
| ContainerProperties.TitleRule | src/features/Calendar/CalendarContainer.tsx:147-153 | The title date is the Sunday of the anchor's week in week mode, and the first of the displayed month in month mode. |
| ContainerProperties.MomentumStep | src/features/Calendar/CalendarContainer.tsx:71-78 | A momentum end writes the pager's month and anchor back to the calendar state. No effect runs. |
| ContainerProperties.SettleOnMonthPage | src/features/Calendar/hooks/useInfinitePager.ts:146-205 | Settling in month mode moves the month by the page's offset from the center. The new center page is exactly the page that was swiped to. |
| ContainerProperties.SettleOnWeekPage | src/features/Calendar/hooks/useInfinitePager.ts:146-219 | Settling in week mode moves the anchor by whole weeks. The new center page is exactly the page that was swiped to. |
| ContainerProperties.ToggleToMonthAsWritten | src/features/Calendar/CalendarContainer.tsx:111-113 | With the effect as written, the toggle from a settled week view ends in month mode at week height, with no animation running. |
| ContainerProperties.ToggleToMonthCorrected | src/features/Calendar/CalendarContainer.tsx:101-119 | With the corrected effect the same toggle animates to month height, and its completion lowers the flag and ends idle. |
| ContainerProperties.WeekDragPreview | src/features/Calendar/CalendarContainer.tsx:111-113 | A drag down from week height that opens the gate switches to month with the flag up. The corrected effect keeps the drag's height, and the form as written snaps it to week height. |

## Left out

- Rendering, layout and navigation are not part of this model: `Calendar.tsx` (the list wiring, the settled index from the scroll offset, and the scroll retry), `DayCell.tsx`, `DailyRecordTabs.tsx`, the screens, the navigator and `App.tsx`.
- `formatTitle` is a locale call (`toLocaleString('ko-KR')`). The model stops at the date the title names (`CalendarContainer.TitleDate`).
- Animation timing is not modelled: the 220 ms duration, the easing curve of the height animation, and the layout transition. A timed animation is its target plus its completion callback. Frames are arbitrary intermediate heights.
- The easing of rows and page lift is any function mapping [0, 1] into [0, 1]. `Easing.EaseOutCubic` shows the library's curve is one. Floating-point rounding is not modelled: all quantities are reals.
- `DRAG_RANGE * 0.35` is exactly 63 in the model. In double arithmetic it is 62.99999999999999, so a travel of exactly 63 commits in the app but not in the model.
- `runOnJS` and `setTimeout(…, 0)` hand-offs run in program order, straight after the callback that schedules them. Interleaving between the UI and JavaScript threads is not modelled.
- `verticalProgress` animations are modelled as writes of their target value. The row and page styles take the progress as an arbitrary value, so the intermediate values are covered there. A drag always resets the progress before it reads it.
- `Date.now()` as the request's sequence number becomes a counter (`nextSeq`) that grows with each request.
- Gesture-recognizer configuration is library behaviour and is not modelled: `minDistance`, `failOffsetX`, `activeOffsetY` and `withRef`.
- Times of day, time zones and daylight saving are not modelled. Dates are whole days, so `setHours(0, 0, 0, 0)` has no effect.
- The layout constants `SCREEN_WIDTH` and `CELL_SIDE` are a symbolic positive cell side. `WEEK_GRID_H` is one cell, `MONTH_GRID_H` six cells and five gaps.
- VerticalTransition.SwitchedToWeek: the `?? today` of `selectedDate ?? prev ?? today` is dropped. The week anchor state is never null, so that fallback cannot be reached.
- InfinitePager.Pager.MomentumEnd, CalendarContainer.Container.PageMomentumEnd: the settled index must lie within the current window. The list only reports indexes of pages it holds, and the source reads `offsets[nextIndex]` without a check.
- CalendarContainer.ViewModeEffect: the corrected effect also changes the drag preview. When a drag from week height opens its gate, the grid keeps the drag's height instead of being reset to the week height until the next update (`ContainerProperties.WeekDragPreview`).
- CalendarContainer.Container.RunViewModeEffect: runs the corrected effect. While the drag-preview flag is up in month mode, it leaves the grid height and any running animation alone. The code at CalendarContainer.tsx:111-113 sets `WEEK_GRID_H` there and stops the animation. `CalendarContainer.ViewModeEffectAsWritten` and `StepAsWritten` model the code; `ContainerProperties.EffectOutcome` states both forms.
- CalendarContainer.Container.Toggle: from a settled week view it ends animating to month height with the corrected effect. The code, as written, stays in month mode at week height with nothing animating (`ContainerProperties.ToggleToMonthAsWritten`, listed under Findings).
- CalendarContainer.Container.PanUpdate: when a drag from week height opens its gate, the corrected effect keeps the height the drag gave the grid. The code snaps it to `WEEK_GRID_H` until the next update (`ContainerProperties.WeekDragPreview` states both).
- CalendarUtils.MakeDateNormalizes, Gregorian.Normalize: years are unbounded integers taken literally. `new Date(y, m, k)` maps years 0 to 99 to 1900 to 1999, and gives an invalid date beyond 8.64e15 ms from 1970. The model has neither, since the calendar starts from today's date and moves by months and weeks.
- The duplicate files `calendar.types.ts` and `calendar.constants.ts` are not part of this model. Their twins `calendarTypes.ts` and `calendarConstants.ts` are modelled instead.

## Findings

| source | as written | input that shows it | evidently intended | confidence | as-written member | corrected member |
|---|---|---|---|---|---|---|
| src/features/Calendar/CalendarContainer.tsx:111-113 | While the drag-preview flag is up, the view-mode effect sets `gridH` straight to `WEEK_GRID_H`. That write stops any running height animation. | In a settled week view, tap the title to toggle. The toggle raises the flag, switches to month and starts `withTiming(MONTH_GRID_H)`. The effect then sets `gridH` to the week height, which stops that animation. Its callback lowers the flag and sets the phase to idle. Month mode is left at week height with no animation running. | The comment at lines 101-102 says the snap is skipped while the preview is in flight, so the toggle's own animation should carry the grid to month height. | medium; not executed | ContainerProperties.ToggleToMonthAsWritten (with CalendarContainer.ViewModeEffectAsWritten) | ContainerProperties.ToggleToMonthCorrected (with CalendarContainer.ViewModeEffect) |
