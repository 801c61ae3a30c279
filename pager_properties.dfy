/**
 * What the pager promises: windows stay runs of consecutive offsets with the
 * center inside; growing a window keeps every existing offset where the
 * center index finds it; a settled page becomes the center and the displayed
 * month or week follows it; and no page changes what it shows for its key
 * when the pager settles or grows.
 */
module PagerProperties {
  import opened CalendarTypes
  import opened CalendarUtils
  import opened InfinitePager

  function Other(mode: ViewMode): ViewMode {
    if mode == Month then Week else Month
  }

  /** Two normalised months with the same month count are the same month. */
  lemma SameMonthCount(a: YearMonth, b: YearMonth)
    requires ValidYearMonth(a) && ValidYearMonth(b)
    requires MonthCount(a) == MonthCount(b)
    ensures a == b
  {
  }

  /** Growing the end appends `chunk` values after the last, keeps every existing one and the center, and nothing else changes. */
  lemma ExtendEndKeepsWindow(p: PagerState, mode: ViewMode)
    requires ValidPager(p)
    ensures var w := WindowOf(p, mode);
            var r := Extended(p, mode, End);
            var w' := WindowOf(r, mode);
            && ValidPager(r)
            && |w'.offsets| == |w.offsets| + Chunk(mode)
            && w'.offsets[..|w.offsets|] == w.offsets
            && w'.offsets[|w'.offsets| - 1] == w.offsets[|w.offsets| - 1] + Chunk(mode)
            && w'.center == w.center
            && WindowOf(r, Other(mode)) == WindowOf(p, Other(mode))
            && r.scrollReq == p.scrollReq
  {
  }

  /**
   * Growing the start prepends `chunk` values before the first and moves the
   * center index by `chunk`, so the center offset is unchanged; a
   * non-animated scroll to the new center index is requested.
   */
  lemma ExtendStartKeepsCenterOffset(p: PagerState, mode: ViewMode)
    requires ValidPager(p)
    ensures var w := WindowOf(p, mode);
            var r := Extended(p, mode, Start);
            var w' := WindowOf(r, mode);
            && ValidPager(r)
            && |w'.offsets| == |w.offsets| + Chunk(mode)
            && w'.offsets[Chunk(mode)..] == w.offsets
            && w'.offsets[0] == w.offsets[0] - Chunk(mode)
            && w'.center == w.center + Chunk(mode)
            && w'.offsets[w'.center] == w.offsets[w.center]
            && WindowOf(r, Other(mode)) == WindowOf(p, Other(mode))
            && r.scrollReq.Some?
            && r.scrollReq.value.index == w'.center && !r.scrollReq.value.animated
  {
    var w := WindowOf(p, mode);
    var w' := WindowOf(Extended(p, mode, Start), mode);
    assert w'.offsets[w'.center] == w'.offsets[Chunk(mode)..][w.center];
  }

  /** `onPressPrev` / `onPressNext`: an animated request to a neighbouring index that exists; the windows do not move. */
  lemma PressTargets(p: PagerState, mode: ViewMode)
    requires ValidPager(p)
    ensures var w := WindowOf(p, mode);
            var prev := PrevPressed(p, mode);
            var next := NextPressed(p, mode);
            && ValidPager(prev) && ValidPager(next)
            && prev.month == p.month && prev.week == p.week
            && next.month == p.month && next.week == p.week
            && prev.scrollReq.value.animated && next.scrollReq.value.animated
            && prev.scrollReq.value.index == (if w.center == 0 then 0 else w.center - 1)
            && next.scrollReq.value.index == (if w.center == |w.offsets| - 1 then w.center else w.center + 1)
            && prev.scrollReq.value.seqNo == p.nextSeq && next.scrollReq.value.seqNo == p.nextSeq
  {
  }

  /**
   * A momentum end makes the settled page's offset the center offset,
   * leaves the other window alone, and moves the displayed month (month
   * mode) or the week anchor (week mode) by the offset difference; settling
   * on the center page changes neither.
   */
  lemma MomentumEndFollowsPage(p: PagerState, mode: ViewMode, ym: YearMonth, anchor: Day, nextIndex: int)
    requires ValidPager(p)
    requires 0 <= nextIndex < |WindowOf(p, mode).offsets|
    ensures var w := WindowOf(p, mode);
            var s := MomentumEnded(p, mode, ym, anchor, nextIndex);
            var w' := WindowOf(s.pager, mode);
            var delta := w.offsets[nextIndex] - w.offsets[w.center];
            && ValidPager(s.pager)
            && w'.offsets[w'.center] == w.offsets[nextIndex]
            && WindowOf(s.pager, Other(mode)) == WindowOf(p, Other(mode))
            && (nextIndex == w.center ==> s.ym == ym && s.weekAnchor == anchor)
            && (mode == Month ==> s.weekAnchor == anchor && MonthCount(s.ym) == MonthCount(ym) + delta)
            && (mode == Month && nextIndex != w.center ==> ValidYearMonth(s.ym))
            && (mode == Week ==> s.ym == ym)
            && (mode == Week && nextIndex != w.center ==>
                  s.weekAnchor == WeekStartSunday(anchor) + 7 * delta && Weekday(s.weekAnchor) == 0)
  {
    var w := WindowOf(p, mode);
    var len := |w.offsets|;
    var moved := if nextIndex != w.center then WithWindow(p, mode, Window(w.offsets, nextIndex)) else p;
    assert ValidPager(moved);
    if nextIndex >= len - EDGE_BUFFER {
      ExtendEndKeepsWindow(moved, mode);
    } else if nextIndex <= EDGE_BUFFER {
      ExtendStartKeepsCenterOffset(moved, mode);
    }
  }

  /**
   * Only the current mode's window grows after a momentum end: at the end
   * when the settled index is within `EDGE_BUFFER` of the last, otherwise at
   * the start when it is within `EDGE_BUFFER` of the first, by exactly one
   * chunk (never both), and not at all in between.
   */
  lemma MomentumEndGrowth(p: PagerState, mode: ViewMode, ym: YearMonth, anchor: Day, nextIndex: int)
    requires ValidPager(p)
    requires 0 <= nextIndex < |WindowOf(p, mode).offsets|
    ensures var w := WindowOf(p, mode);
            var len := |w.offsets|;
            var s := MomentumEnded(p, mode, ym, anchor, nextIndex);
            var w' := WindowOf(s.pager, mode);
            && (nextIndex >= len - EDGE_BUFFER ==>
                  |w'.offsets| == len + Chunk(mode) && w'.offsets[..len] == w.offsets
                  && w'.center == nextIndex)
            && (nextIndex < len - EDGE_BUFFER && nextIndex <= EDGE_BUFFER ==>
                  |w'.offsets| == len + Chunk(mode) && w'.offsets[Chunk(mode)..] == w.offsets
                  && w'.center == nextIndex + Chunk(mode)
                  && s.pager.scrollReq.Some? && s.pager.scrollReq.value.index == w'.center
                  && !s.pager.scrollReq.value.animated)
            && (EDGE_BUFFER < nextIndex < len - EDGE_BUFFER ==>
                  w'.offsets == w.offsets && w'.center == nextIndex && s.pager.scrollReq == p.scrollReq)
  {
    var w := WindowOf(p, mode);
    var len := |w.offsets|;
    var moved := if nextIndex != w.center then WithWindow(p, mode, Window(w.offsets, nextIndex)) else p;
    assert ValidPager(moved);
    if nextIndex >= len - EDGE_BUFFER {
      ExtendEndKeepsWindow(moved, mode);
    } else if nextIndex <= EDGE_BUFFER {
      ExtendStartKeepsCenterOffset(moved, mode);
    }
  }

  /** One month page per offset, keyed by it: keys are unique because the offsets are. */
  lemma MonthPageKeysUnique(w: Window, ym: YearMonth)
    requires ValidWindow(w)
    ensures var pages := MonthPages(w.offsets, CenterValue(w), ym);
            && (forall i :: 0 <= i < |pages| ==> pages[i].key == MonthKey(w.offsets[i]))
            && (forall i, j :: 0 <= i < |pages| && 0 <= j < |pages| && i != j ==> pages[i].key != pages[j].key)
  {
    var pages := MonthPages(w.offsets, CenterValue(w), ym);
    forall i | 0 <= i < |pages|
      ensures pages[i].key == MonthKey(w.offsets[i])
    {
      MonthPageParts(ym, w.offsets[i], w.offsets[i] - CenterValue(w));
    }
    forall i, j | 0 <= i < |pages| && 0 <= j < |pages| && i != j
      ensures pages[i].key != pages[j].key
    {
      assert w.offsets[i] == w.offsets[0] + i && w.offsets[j] == w.offsets[0] + j;
    }
  }

  /** One week page per offset, keyed by it: keys are unique because the offsets are. */
  lemma WeekPageKeysUnique(w: Window, anchor: Day)
    requires ValidWindow(w)
    ensures var pages := WeekPages(w.offsets, CenterValue(w), anchor);
            && (forall i :: 0 <= i < |pages| ==> pages[i].key == WeekKey(w.offsets[i]))
            && (forall i, j :: 0 <= i < |pages| && 0 <= j < |pages| && i != j ==> pages[i].key != pages[j].key)
  {
    var pages := WeekPages(w.offsets, CenterValue(w), anchor);
    forall i, j | 0 <= i < |pages| && 0 <= j < |pages| && i != j
      ensures pages[i].key != pages[j].key
    {
      assert w.offsets[i] == w.offsets[0] + i && w.offsets[j] == w.offsets[0] + j;
    }
  }

  lemma ShiftMonthZero(ym: YearMonth)
    requires ValidYearMonth(ym)
    ensures ShiftMonth(ym, 0) == ym
  {
    SameMonthCount(ShiftMonth(ym, 0), ym);
  }

  /**
   * Month page `i` shows the whole-week grid of the month `i - center`
   * months from the displayed one; the center page shows the displayed month.
   */
  lemma MonthPageShows(w: Window, ym: YearMonth, i: int)
    requires ValidWindow(w)
    requires 0 <= i < |w.offsets|
    ensures var page := MonthPages(w.offsets, CenterValue(w), ym)[i];
            var shown := ShiftMonth(ym, i - w.center);
            && MonthCount(shown) == MonthCount(ym) + i - w.center
            && page.days == MonthMatrix(shown.year, shown.monthIndex)
            && page.monthIndex == shown.monthIndex
            && (i == w.center && ValidYearMonth(ym) ==> shown == ym)
  {
    var rel := w.offsets[i] - CenterValue(w);
    assert rel == i - w.center;
    assert MonthPages(w.offsets, CenterValue(w), ym)[i] == MonthPage(ym, w.offsets[i], i - w.center);
    MonthPageParts(ym, w.offsets[i], i - w.center);
    if i == w.center && ValidYearMonth(ym) {
      ShiftMonthZero(ym);
    }
  }

  /** The three parts of a month page: its key, its grid and its month. */
  lemma MonthPageParts(ym: YearMonth, off: int, rel: int)
    ensures var shown := ShiftMonth(ym, rel);
            var page := MonthPage(ym, off, rel);
            && page.key == MonthKey(off)
            && page.days == MonthMatrix(shown.year, shown.monthIndex)
            && page.monthIndex == shown.monthIndex
  {
  }

  /** From a Sunday, `ShiftWeek` moves by whole weeks. */
  lemma ShiftWeekFromSunday(sunday: Day, delta: int)
    requires Weekday(sunday) == 0
    ensures ShiftWeek(sunday, delta) == sunday + 7 * delta
  {
    WeekStartSundayExact(sunday, sunday);
  }

  /**
   * Week page `i` shows the seven days from the Sunday `i - center` weeks
   * from the anchor's week; the center page shows the anchor's own week.
   */
  lemma WeekPageShows(w: Window, anchor: Day, i: int)
    requires ValidWindow(w)
    requires 0 <= i < |w.offsets|
    ensures var page := WeekPages(w.offsets, CenterValue(w), anchor)[i];
            var start := WeekStartSunday(anchor) + 7 * (i - w.center);
            && page.days == BuildWeekDays(start)
            && Weekday(start) == 0
            && (i == w.center ==> anchor in page.days)
  {
    assert w.offsets[i] - CenterValue(w) == i - w.center;
    var start := WeekStartSunday(anchor) + 7 * (i - w.center);
    ShiftWeekFromSunday(WeekStartSunday(anchor), i - w.center);
    WeekStartSundayExact(WeekStartSunday(anchor), WeekStartSunday(anchor));
    assert start == ShiftWeek(anchor, i - w.center);
    if i == w.center {
      WeekDaysFromSunday(start, anchor);
    }
  }

  /**
   * In month mode `pages` has one page per offset of the month window: page
   * `i` is keyed by its offset, which no other page shares, and shows the
   * month `offsets[i] - offsets[center]` months from the displayed one; the
   * center page shows the displayed month itself.
   */
  lemma PagesShowMonths(p: PagerState, ym: YearMonth, anchor: Day, i: int)
    requires ValidPager(p) && 0 <= i < |p.month.offsets|
    ensures var w := p.month;
            var pages := Pages(p, Month, ym, anchor);
            var shown := ShiftMonth(ym, i - w.center);
            && w.offsets[i] - w.offsets[w.center] == i - w.center
            && |pages| == |w.offsets|
            && pages[i].key == MonthKey(w.offsets[i])
            && (forall j :: 0 <= j < |pages| && j != i ==> pages[j].key != pages[i].key)
            && MonthCount(shown) == MonthCount(ym) + i - w.center
            && pages[i].days == MonthMatrix(shown.year, shown.monthIndex)
            && pages[i].monthIndex == shown.monthIndex
            && (i == w.center && ValidYearMonth(ym) ==> shown == ym)
  {
    var w := p.month;
    var pages := MonthPages(w.offsets, CenterValue(w), ym);
    assert Pages(p, Month, ym, anchor) == pages;
    assert CenterValue(w) == w.offsets[w.center];
    assert w.offsets[i] - w.offsets[w.center] == i - w.center;
    MonthPageKeysUnique(w, ym);
    MonthPageShows(w, ym, i);
  }

  /**
   * In week mode `pages` has one page per offset of the week window: page
   * `i` is keyed by its offset, which no other page shares, and shows the
   * seven days from the Sunday `offsets[i] - offsets[center]` weeks after
   * the anchor's, labelled with that Sunday's month; the center page holds
   * the anchor.
   */
  lemma PagesShowWeeks(p: PagerState, ym: YearMonth, anchor: Day, i: int)
    requires ValidPager(p) && 0 <= i < |p.week.offsets|
    ensures var w := p.week;
            var pages := Pages(p, Week, ym, anchor);
            var start := WeekStartSunday(anchor) + 7 * (w.offsets[i] - w.offsets[w.center]);
            && |pages| == |w.offsets|
            && pages[i].key == WeekKey(w.offsets[i])
            && (forall j :: 0 <= j < |pages| && j != i ==> pages[j].key != pages[i].key)
            && Weekday(start) == 0
            && pages[i].days == BuildWeekDays(start)
            && pages[i].monthIndex == MonthOf(start)
            && (i == w.center ==> anchor in pages[i].days)
  {
    var w := p.week;
    assert w.offsets[i] - w.offsets[w.center] == i - w.center;
    WeekPageKeysUnique(w, anchor);
    WeekPageShows(w, anchor, i);
    ShiftWeekFromSunday(WeekStartSunday(anchor), i - w.center);
    WeekStartSundayExact(WeekStartSunday(anchor), WeekStartSunday(anchor));
  }

  /** A month page depends on the month it shows, not on how that month was reached. */
  lemma MonthPageCongruence(ym: YearMonth, ym': YearMonth, off: int, rel: int, rel': int)
    requires ShiftMonth(ym, rel) == ShiftMonth(ym', rel')
    ensures MonthPage(ym, off, rel) == MonthPage(ym', off, rel')
  {
  }

  /** A week page depends on the Sunday it starts from, not on how that Sunday was reached. */
  lemma WeekPageCongruence(anchor: Day, anchor': Day, off: int, rel: int, rel': int)
    requires ShiftWeek(anchor, rel) == ShiftWeek(anchor', rel')
    ensures WeekPage(anchor, off, rel) == WeekPage(anchor', off, rel')
  {
  }

  /**
   * Moving the center of a month window by `delta` pages while moving the
   * displayed month by `delta` months keeps the page of every offset.
   */
  lemma MonthPagesRecentered(offsets: seq<int>, offsets': seq<int>, c: int, c': int, ym: YearMonth, ym': YearMonth, i: int, j: int)
    requires 0 <= i < |offsets| && 0 <= j < |offsets'| && offsets'[j] == offsets[i]
    requires MonthCount(ym') == MonthCount(ym) + (c' - c)
    ensures MonthPages(offsets', c', ym')[j] == MonthPages(offsets, c, ym)[i]
  {
    var off := offsets[i];
    SameMonthCount(ShiftMonth(ym, off - c), ShiftMonth(ym', off - c'));
    MonthPageCongruence(ym, ym', off, off - c, off - c');
  }

  /**
   * Moving the center of a week window by `delta` pages while moving the
   * anchor to the Sunday `delta` weeks on keeps the page of every offset.
   */
  lemma WeekPagesRecentered(offsets: seq<int>, offsets': seq<int>, c: int, c': int, anchor: Day, anchor': Day, i: int, j: int)
    requires 0 <= i < |offsets| && 0 <= j < |offsets'| && offsets'[j] == offsets[i]
    requires WeekStartSunday(anchor') == WeekStartSunday(anchor) + 7 * (c' - c)
    ensures WeekPages(offsets', c', anchor')[j] == WeekPages(offsets, c, anchor)[i]
  {
    var off := offsets[i];
    var sunday, sunday' := WeekStartSunday(anchor), WeekStartSunday(anchor');
    ShiftWeekFromSunday(sunday, off - c);
    WeekStartSundayExact(sunday, sunday);
    ShiftWeekFromSunday(sunday', off - c');
    WeekStartSundayExact(sunday', sunday');
    WeekPageCongruence(anchor, anchor', off, off - c, off - c');
  }

  /**
   * Settling in month mode does not change what any month page shows: the
   * page of an offset shows the same grid, month and key before and after,
   * only at a possibly different index.
   */
  lemma SettlingKeepsMonthPages(p: PagerState, ym: YearMonth, anchor: Day, nextIndex: int, i: int, j: int)
    requires ValidPager(p)
    requires 0 <= nextIndex < |p.month.offsets|
    requires 0 <= i < |p.month.offsets|
    requires var s := MomentumEnded(p, Month, ym, anchor, nextIndex);
             0 <= j < |s.pager.month.offsets| && s.pager.month.offsets[j] == p.month.offsets[i]
    ensures var s := MomentumEnded(p, Month, ym, anchor, nextIndex);
            MonthPages(s.pager.month.offsets, CenterValue(s.pager.month), s.ym)[j]
              == MonthPages(p.month.offsets, CenterValue(p.month), ym)[i]
  {
    var s := MomentumEnded(p, Month, ym, anchor, nextIndex);
    MomentumEndFollowsPage(p, Month, ym, anchor, nextIndex);
    MonthPagesRecentered(p.month.offsets, s.pager.month.offsets, CenterValue(p.month), CenterValue(s.pager.month), ym, s.ym, i, j);
  }

  /**
   * Settling in week mode does not change what any week page shows: the
   * page of an offset shows the same seven days, month and key before and
   * after, only at a possibly different index.
   */
  lemma SettlingKeepsWeekPages(p: PagerState, ym: YearMonth, anchor: Day, nextIndex: int, i: int, j: int)
    requires ValidPager(p)
    requires 0 <= nextIndex < |p.week.offsets|
    requires 0 <= i < |p.week.offsets|
    requires var s := MomentumEnded(p, Week, ym, anchor, nextIndex);
             0 <= j < |s.pager.week.offsets| && s.pager.week.offsets[j] == p.week.offsets[i]
    ensures var s := MomentumEnded(p, Week, ym, anchor, nextIndex);
            WeekPages(s.pager.week.offsets, CenterValue(s.pager.week), s.weekAnchor)[j]
              == WeekPages(p.week.offsets, CenterValue(p.week), anchor)[i]
  {
    var s := MomentumEnded(p, Week, ym, anchor, nextIndex);
    MomentumEndFollowsPage(p, Week, ym, anchor, nextIndex);
    if nextIndex != p.week.center {
      WeekStartSundayExact(s.weekAnchor, s.weekAnchor);
    }
    WeekPagesRecentered(p.week.offsets, s.pager.week.offsets, CenterValue(p.week), CenterValue(s.pager.week), anchor, s.weekAnchor, i, j);
  }
}
