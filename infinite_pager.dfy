/**
 * The horizontal pager (useInfinitePager.ts): two windows of consecutive
 * integer offsets, one for months and one for weeks, each with a center
 * index; a window grows by a fixed chunk when a settled page comes near one of
 * its edges; a settled page moves the displayed month or week by the
 * difference of offsets; every scroll command carries a fresh sequence number.
 *
 * The functions below are the state after each operation; class `Pager`
 * performs the same operations in place and is proved against them.
 * `Date.now()` as the sequence number is a counter here.
 */
module InfinitePager {
  import opened CalendarTypes
  import opened CalendarUtils
  import opened Gregorian

  const MONTH_CHUNK: nat := 24
  const WEEK_CHUNK: nat := 26
  const EDGE_BUFFER: nat := 6

  function Chunk(mode: ViewMode): nat {
    if mode == Month then MONTH_CHUNK else WEEK_CHUNK
  }

  /** A run of consecutive integers, non-empty. */
  predicate Consecutive(s: seq<int>) {
    |s| > 0 && forall i :: 0 <= i < |s| ==> s[i] == s[0] + i
  }

  /** `initialOffsets(chunk)`: the integers -chunk .. chunk, zero in the middle. */
  function InitialOffsets(chunk: nat): (s: seq<int>)
    ensures Consecutive(s) && |s| == 2 * chunk + 1
    ensures s[0] + chunk == 0 && s[chunk] == 0
  {
    seq(2 * chunk + 1, i => i - chunk)
  }

  /** The `dir === 'end'` branch of `extend`: `chunk` more values after the last one. */
  function ExtendedEnd(s: seq<int>, chunk: nat): (r: seq<int>)
    requires |s| > 0
    ensures |r| == |s| + chunk && r[..|s|] == s
    ensures Consecutive(s) ==> Consecutive(r)
  {
    var last := s[|s| - 1];
    s + seq(chunk, i => last + i + 1)
  }

  /** The `dir === 'start'` branch of `extend`: `chunk` more values before the first one. */
  function ExtendedStart(s: seq<int>, chunk: nat): (r: seq<int>)
    requires |s| > 0
    ensures |r| == |s| + chunk && r[chunk..] == s
    ensures Consecutive(s) ==> Consecutive(r)
  {
    var first := s[0];
    var more := seq(chunk, i => first - chunk + i);
    assert forall i :: chunk <= i < chunk + |s| ==> (more + s)[i] == s[i - chunk];
    more + s
  }

  /** One window: its offsets (`monthOffsets` / `weekOffsets`) and its center index ref. */
  datatype Window = Window(offsets: seq<int>, center: int)

  predicate ValidWindow(w: Window) {
    Consecutive(w.offsets) && 0 <= w.center < |w.offsets|
  }

  datatype Edge = Start | End

  datatype PagerState = PagerState(
    month: Window,
    week: Window,
    scrollReq: Option<ScrollRequest>,
    nextSeq: nat)

  /** Both windows are well formed and the pending request, if any, has an already used sequence number. */
  predicate ValidPager(p: PagerState) {
    && ValidWindow(p.month)
    && ValidWindow(p.week)
    && (p.scrollReq.Some? ==> p.scrollReq.value.seqNo < p.nextSeq)
  }

  function WindowOf(p: PagerState, mode: ViewMode): Window {
    if mode == Month then p.month else p.week
  }

  function WithWindow(p: PagerState, mode: ViewMode, w: Window): PagerState {
    if mode == Month then p.(month := w) else p.(week := w)
  }

  /** The state on mount: both windows from `initialOffsets`, centered on offset 0, and no request. */
  function InitialPager(): (p: PagerState)
    ensures ValidPager(p) && p.scrollReq.None?
    ensures forall mode :: WindowOf(p, mode).center == Chunk(mode)
    ensures forall mode :: WindowOf(p, mode).offsets[WindowOf(p, mode).center] == 0
  {
    PagerState(Window(InitialOffsets(MONTH_CHUNK), MONTH_CHUNK),
               Window(InitialOffsets(WEEK_CHUNK), WEEK_CHUNK), None, 0)
  }

  /** `requestScroll(index, animated)`: a new request, numbered after every earlier one. */
  function ScrollRequested(p: PagerState, index: int, animated: bool): (r: PagerState)
    ensures r.month == p.month && r.week == p.week
    ensures r.scrollReq.Some? && r.scrollReq.value.index == index && r.scrollReq.value.animated == animated
    ensures ValidPager(p) ==> ValidPager(r)
    ensures ValidPager(p) && p.scrollReq.Some? ==> r.scrollReq.value.seqNo > p.scrollReq.value.seqNo
  {
    PagerState(p.month, p.week, Some(ScrollRequest(index, animated, p.nextSeq)), p.nextSeq + 1)
  }

  /**
   * `extend(mode, dir)`: the end grows with the center index kept; the start
   * grows with the center index moved by the chunk, followed by a
   * non-animated scroll to the new center.
   */
  function Extended(p: PagerState, mode: ViewMode, edge: Edge): PagerState
    requires ValidPager(p)
  {
    var w := WindowOf(p, mode);
    var chunk := Chunk(mode);
    if edge == End then
      WithWindow(p, mode, Window(ExtendedEnd(w.offsets, chunk), w.center))
    else
      var moved := WithWindow(p, mode, Window(ExtendedStart(w.offsets, chunk), w.center + chunk));
      ScrollRequested(moved, w.center + chunk, false)
  }

  /** `onPressPrev`: an animated scroll one page back, not below index 0. */
  function PrevPressed(p: PagerState, mode: ViewMode): PagerState {
    var cur := WindowOf(p, mode).center;
    ScrollRequested(p, if cur - 1 < 0 then 0 else cur - 1, true)
  }

  /** `onPressNext`: an animated scroll one page on, not past the last index. */
  function NextPressed(p: PagerState, mode: ViewMode): PagerState {
    var w := WindowOf(p, mode);
    var last := |w.offsets| - 1;
    ScrollRequested(p, if w.center + 1 < last then w.center + 1 else last, true)
  }

  /**
   * The month `delta` months from `ym`, with year carry.  The source reaches
   * it through `Date`: `new Date(year, monthIndex, 1)`, then
   * `setMonth(getMonth() + delta)` on a copy, then `getYearMonthFrom`;
   * `ShiftMonthAsWritten` shows those steps land exactly here.
   */
  function ShiftMonth(ym: YearMonth, delta: int): (r: YearMonth)
    ensures ValidYearMonth(r)
    ensures MonthCount(r) == MonthCount(ym) + delta
  {
    NormalizeYearMonth(ym.year, ym.monthIndex + delta)
  }

  /** `date.setMonth(m)` on a copy of `date`: same year and day of month, month `m` carried. */
  function SetMonth(date: Day, m: int): Day {
    MakeDate(FullYear(date), m, DateOf(date))
  }

  lemma ShiftMonthAsWritten(ym: YearMonth, delta: int)
    ensures var base := MakeDate(ym.year, ym.monthIndex, 1);
            GetYearMonthFrom(SetMonth(base, MonthOf(base) + delta)) == ShiftMonth(ym, delta)
  {
    SetMonthFromFirst(ym, delta);
    FirstOfMonthYearMonth(ShiftMonth(ym, delta));
  }

  /** `setMonth(getMonth() + delta)` on `new Date(year, monthIndex, 1)` is the first of the shifted month. */
  lemma SetMonthFromFirst(ym: YearMonth, delta: int)
    ensures var base := MakeDate(ym.year, ym.monthIndex, 1);
            SetMonth(base, MonthOf(base) + delta) == FirstOfMonth(ShiftMonth(ym, delta))
  {
    var base := MakeDate(ym.year, ym.monthIndex, 1);
    var n := NormalizeYearMonth(ym.year, ym.monthIndex);
    MakeDateFirst(ym.year, ym.monthIndex);
    FirstOfMonthCivil(n);
    SetMonthKeepsYearAndDay(base, Civil(n.year, n.monthIndex, 1), MonthOf(base) + delta);
    MakeDateFirstCarried(ym.year, ym.monthIndex, delta);
  }

  /** `setMonth` keeps the year and the day of month and replaces only the month. */
  lemma SetMonthKeepsYearAndDay(d: Day, c: Civil, m: int)
    requires CivilOf(d) == c
    ensures SetMonth(d, m) == MakeDate(c.year, m, c.day)
  {
  }

  /**
   * The Sunday `delta` weeks from the week of `anchor`: `weekStartSunday`,
   * then `setDate(getDate() + delta * 7)` on a copy.
   */
  function ShiftWeek(anchor: Day, delta: int): (r: Day)
    ensures Weekday(r) == 0
    ensures 7 * delta - 6 <= r - anchor <= 7 * delta
  {
    var baseStart := WeekStartSunday(anchor);
    var k := baseStart / 7;
    assert baseStart == 7 * k;
    assert AddDays(baseStart, delta * 7) == 7 * (k + delta);
    AddDays(baseStart, delta * 7)
  }

  /** What `handlePageMomentumEnd` leaves behind: the pager and the two calendar values it may set. */
  datatype Settled = Settled(pager: PagerState, ym: YearMonth, weekAnchor: Day)

  /**
   * `handlePageMomentumEnd(nextIndex)`: a page other than the center moves
   * the displayed month (or week) by the offset difference and becomes the
   * center; then the window grows at the end when the page is within
   * `EDGE_BUFFER` of it, or else at the start when it is within
   * `EDGE_BUFFER` of that.
   */
  function MomentumEnded(p: PagerState, mode: ViewMode, ym: YearMonth, anchor: Day, nextIndex: int): Settled
    requires ValidPager(p)
    requires 0 <= nextIndex < |WindowOf(p, mode).offsets|
  {
    var w := WindowOf(p, mode);
    var shifted :=
      if nextIndex != w.center then
        var delta := w.offsets[nextIndex] - w.offsets[w.center];
        var moved := WithWindow(p, mode, Window(w.offsets, nextIndex));
        if mode == Month then Settled(moved, ShiftMonth(ym, delta), anchor)
        else Settled(moved, ym, ShiftWeek(anchor, delta))
      else
        Settled(p, ym, anchor);
    var len := |w.offsets|;
    if nextIndex >= len - EDGE_BUFFER then shifted.(pager := Extended(shifted.pager, mode, End))
    else if nextIndex <= EDGE_BUFFER then shifted.(pager := Extended(shifted.pager, mode, Start))
    else shifted
  }

  /** A page of the month window: the month `rel` months from the displayed one. */
  function MonthPage(ym: YearMonth, off: int, rel: int): PageData {
    var shown := ShiftMonth(ym, rel);
    PageData(MonthKey(off), MonthMatrix(shown.year, shown.monthIndex), shown.monthIndex)
  }

  /** A page of the week window: the week `rel` weeks from the anchor's. */
  function WeekPage(anchor: Day, off: int, rel: int): PageData {
    var start := ShiftWeek(anchor, rel);
    PageData(WeekKey(off), BuildWeekDays(start), MonthOf(start))
  }

  /** `offsets[centerIndex] ?? 0`: the center offset, 0 when the center index is out of range. */
  function CenterValue(w: Window): int {
    if 0 <= w.center < |w.offsets| then w.offsets[w.center] else 0
  }

  /** The month branch of `pages`: one month page per offset, shifted by its distance from the center offset. */
  function MonthPages(offsets: seq<int>, centerVal: int, ym: YearMonth): (pages: seq<PageData>)
    ensures |pages| == |offsets|
    ensures forall i {:trigger pages[i]} :: 0 <= i < |offsets| ==> pages[i] == MonthPage(ym, offsets[i], offsets[i] - centerVal)
  {
    seq(|offsets|, i requires 0 <= i < |offsets| => MonthPage(ym, offsets[i], offsets[i] - centerVal))
  }

  /** The week branch of `pages`: one week page per offset, shifted by its distance from the center offset. */
  function WeekPages(offsets: seq<int>, centerVal: int, anchor: Day): (pages: seq<PageData>)
    ensures |pages| == |offsets|
    ensures forall i {:trigger pages[i]} :: 0 <= i < |offsets| ==> pages[i] == WeekPage(anchor, offsets[i], offsets[i] - centerVal)
  {
    seq(|offsets|, i requires 0 <= i < |offsets| => WeekPage(anchor, offsets[i], offsets[i] - centerVal))
  }

  /** The `pages` derivation for the current mode. */
  function Pages(p: PagerState, mode: ViewMode, ym: YearMonth, anchor: Day): seq<PageData> {
    var w := WindowOf(p, mode);
    if mode == Month then MonthPages(w.offsets, CenterValue(w), ym)
    else WeekPages(w.offsets, CenterValue(w), anchor)
  }

  /** The pager hook's state, updated in place: offset arrays, center refs and the scroll request. */
  class Pager {
    var monthOffsets: seq<int>
    var weekOffsets: seq<int>
    var monthCenter: int
    var weekCenter: int
    var scrollReq: Option<ScrollRequest>
    var nextSeq: nat

    function Model(): PagerState
      reads this
    {
      PagerState(Window(monthOffsets, monthCenter), Window(weekOffsets, weekCenter), scrollReq, nextSeq)
    }

    predicate Valid()
      reads this
    {
      ValidPager(Model())
    }

    constructor()
      ensures Model() == InitialPager()
    {
      monthOffsets := InitialOffsets(MONTH_CHUNK);
      weekOffsets := InitialOffsets(WEEK_CHUNK);
      monthCenter := MONTH_CHUNK;
      weekCenter := WEEK_CHUNK;
      scrollReq := None;
      nextSeq := 0;
    }

    /** `currentIndex`: the center index of the current mode. */
    function CurrentIndex(mode: ViewMode): int
      reads this
    {
      if mode == Month then monthCenter else weekCenter
    }

    method RequestScroll(index: int, animated: bool)
      modifies this
      ensures Model() == ScrollRequested(old(Model()), index, animated)
    {
      scrollReq := Some(ScrollRequest(index, animated, nextSeq));
      nextSeq := nextSeq + 1;
    }

    method Extend(mode: ViewMode, edge: Edge)
      requires Valid()
      modifies this
      ensures Model() == Extended(old(Model()), mode, edge)
    {
      if mode == Month {
        if edge == End {
          monthOffsets := ExtendedEnd(monthOffsets, MONTH_CHUNK);
        } else {
          monthOffsets := ExtendedStart(monthOffsets, MONTH_CHUNK);
          monthCenter := monthCenter + MONTH_CHUNK;
          RequestScroll(monthCenter, false);
        }
      } else {
        if edge == End {
          weekOffsets := ExtendedEnd(weekOffsets, WEEK_CHUNK);
        } else {
          weekOffsets := ExtendedStart(weekOffsets, WEEK_CHUNK);
          weekCenter := weekCenter + WEEK_CHUNK;
          RequestScroll(weekCenter, false);
        }
      }
    }

    method PressPrev(mode: ViewMode)
      modifies this
      ensures Model() == PrevPressed(old(Model()), mode)
    {
      var cur := CurrentIndex(mode);
      var next := if cur - 1 < 0 then 0 else cur - 1;
      RequestScroll(next, true);
    }

    method PressNext(mode: ViewMode)
      modifies this
      ensures Model() == NextPressed(old(Model()), mode)
    {
      var offsets := if mode == Month then monthOffsets else weekOffsets;
      var cur := CurrentIndex(mode);
      var next := if cur + 1 < |offsets| - 1 then cur + 1 else |offsets| - 1;
      RequestScroll(next, true);
    }

    /** `handlePageMomentumEnd`; the new month and week anchor are what the source hands to `setYM` and `setWeekAnchorDate`. */
    method MomentumEnd(mode: ViewMode, ym: YearMonth, anchor: Day, nextIndex: int)
      returns (newYm: YearMonth, newAnchor: Day)
      requires Valid()
      requires 0 <= nextIndex < |WindowOf(Model(), mode).offsets|
      modifies this
      ensures Settled(Model(), newYm, newAnchor) == MomentumEnded(old(Model()), mode, ym, anchor, nextIndex)
    {
      var offsets := if mode == Month then monthOffsets else weekOffsets;
      var prevIndex := CurrentIndex(mode);
      newYm, newAnchor := ym, anchor;
      if nextIndex != prevIndex {
        var delta := offsets[nextIndex] - offsets[prevIndex];
        if mode == Month {
          newYm := ShiftMonth(ym, delta);
          monthCenter := nextIndex;
        } else {
          newAnchor := ShiftWeek(anchor, delta);
          weekCenter := nextIndex;
        }
      }
      var len := |offsets|;
      if nextIndex >= len - EDGE_BUFFER {
        Extend(mode, End);
      } else if nextIndex <= EDGE_BUFFER {
        Extend(mode, Start);
      }
    }
  }
}
