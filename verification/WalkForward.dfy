/**
  Walk-forward windows (src/backtest/walk_forward.py) over the proleptic Gregorian calendar. Moving by months keeps
  the day of the month, clamped to the length of the month; leaving the years 1 to 9999 raises, which is `None`.
*/
module WalkForward {
  import opened Wrappers
  import opened Decimals

  // ---- Dates ----

  datatype RawDate = Date(year: int, month: int, day: int)

  predicate Leap(year: int) {
    year % 4 == 0 && (year % 100 != 0 || year % 400 == 0)
  }

  function DaysIn(year: int, month: int): int {
    if month == 2 then (if Leap(year) then 29 else 28)
    else if month in {4, 6, 9, 11} then 30
    else 31
  }

  predicate IsDate(d: RawDate) {
    1 <= d.year <= 9999 && 1 <= d.month <= 12 && 1 <= d.day <= DaysIn(d.year, d.month)
  }

  type CivilDate = d: RawDate | IsDate(d) witness Date(1, 1, 1)

  /** Dates compare by year, then month, then day; this number orders them the same way. */
  function Key(d: CivilDate): (k: int)
    ensures 0 <= k <= 9999 * 384 + 12 * 32 + 31
  {
    d.year * 384 + d.month * 32 + d.day
  }

  lemma KeyIsLexicographic(d: CivilDate, e: CivilDate)
    ensures Key(d) < Key(e) <==>
              d.year < e.year || (d.year == e.year && (d.month < e.month || (d.month == e.month && d.day < e.day)))
    ensures Key(d) == Key(e) <==> d == e
  {
  }

  function NextDay(d: CivilDate): Option<CivilDate> {
    if d.day < DaysIn(d.year, d.month) then Some(Date(d.year, d.month, d.day + 1))
    else if d.month < 12 then Some(Date(d.year, d.month + 1, 1))
    else if d.year < 9999 then Some(Date(d.year + 1, 1, 1))
    else None
  }

  function PreviousDay(d: CivilDate): Option<CivilDate> {
    if d.day > 1 then Some(Date(d.year, d.month, d.day - 1))
    else if d.month > 1 then Some(Date(d.year, d.month - 1, DaysIn(d.year, d.month - 1)))
    else if d.year > 1 then Some(Date(d.year - 1, 12, 31))
    else None
  }

  /** `d + relativedelta(months=k)` */
  function AddMonths(d: CivilDate, k: int): Option<CivilDate> {
    var months := d.year * 12 + d.month - 1 + k;
    var year, month := months / 12, months % 12 + 1;
    if 1 <= year <= 9999 then Some(Date(year, month, MinInt(d.day, DaysIn(year, month)))) else None
  }

  /** The day after and the day before undo each other. */
  lemma DaysAdjacent(d: CivilDate)
    ensures PreviousDay(d).Some? ==> NextDay(PreviousDay(d).value) == Some(d) && Key(PreviousDay(d).value) < Key(d)
    ensures NextDay(d).Some? ==> PreviousDay(NextDay(d).value) == Some(d) && Key(d) < Key(NextDay(d).value)
  {
  }

  /** No date lies between a date and its next day. */
  lemma NothingBetween(d: CivilDate, e: CivilDate)
    requires NextDay(d).Some?
    ensures Key(e) <= Key(d) || Key(e) >= Key(NextDay(d).value)
  {
    KeyIsLexicographic(d, e);
    KeyIsLexicographic(e, NextDay(d).value);
  }

  /** Clamping to the end of the month never makes a longer move land earlier. */
  lemma MonthsMonotone(d: CivilDate, j: int, k: int)
    requires AddMonths(d, j).Some? && AddMonths(d, k).Some?
    ensures j < k <==> Key(AddMonths(d, j).value) < Key(AddMonths(d, k).value)
  {
    var a, b := AddMonths(d, j).value, AddMonths(d, k).value;
    var base := d.year * 12 + d.month - 1;
    assert a.year * 12 + a.month - 1 == base + j;
    assert b.year * 12 + b.month - 1 == base + k;
    if j == k {
      assert a == b;
    }
  }

  lemma NoMonths(d: CivilDate)
    ensures AddMonths(d, 0) == Some(d)
  {
  }

  // ---- Windows ----

  datatype Window = Window(isStart: CivilDate, isEnd: CivilDate, oosStart: CivilDate, oosEnd: CivilDate)

  /** The window that starts at a cursor, unless one of its dates leaves the calendar. */
  function WindowFrom(cursor: CivilDate, windowMonths: int, oosMonths: int): Option<Window> {
    match AddMonths(cursor, windowMonths)
    case None => None
    case Some(afterIs) =>
      match PreviousDay(afterIs)
      case None => None
      case Some(isEnd) =>
        match NextDay(isEnd)
        case None => None
        case Some(oosStart) =>
          match AddMonths(oosStart, oosMonths)
          case None => None
          case Some(afterOos) =>
            match PreviousDay(afterOos)
            case None => None
            case Some(oosEnd) => Some(Window(cursor, isEnd, oosStart, oosEnd))
  }

  /** The cursor after some windows. */
  function CursorAfter(windows: seq<Window>, start: CivilDate): CivilDate {
    if windows == [] then start else windows[|windows| - 1].oosStart
  }

  /** Each window starts where the out-of-sample part of the one before it starts, and ends within the range. */
  ghost predicate Chain(windows: seq<Window>, start: CivilDate, end: CivilDate, windowMonths: int, oosMonths: int) {
    forall i :: 0 <= i < |windows| ==>
      && WindowFrom(CursorAfter(windows[..i], start), windowMonths, oosMonths) == Some(windows[i])
      && Key(windows[i].oosEnd) <= Key(end)
  }

  /** A window that starts at a cursor and ends within the range. */
  predicate Fits(cursor: CivilDate, end: CivilDate, windowMonths: int, oosMonths: int) {
    var w := WindowFrom(cursor, windowMonths, oosMonths);
    w.Some? && Key(w.value.oosEnd) <= Key(end)
  }

  /**
    The windows of a range. The loop ends unless windows of no months begin with one that fits (`ZeroMonthsNeverEnd`):
    it moves forward with positive months and back with negative ones. It stops at the first window whose out-of-sample
    part runs past the end; `None` is the exception of a window that leaves the calendar first.
  */
  method GenerateWindows(start: CivilDate, end: CivilDate, windowMonths: int, oosMonths: int)
    returns (result: Option<seq<Window>>)
    requires !(windowMonths == 0 && Fits(start, end, windowMonths, oosMonths))
    ensures result.Some? ==>
              && Chain(result.value, start, end, windowMonths, oosMonths)
              && var next := WindowFrom(CursorAfter(result.value, start), windowMonths, oosMonths);
                 next.Some? && Key(next.value.oosEnd) > Key(end)
    ensures result.None? ==> exists windows: seq<Window> ::
              && Chain(windows, start, end, windowMonths, oosMonths)
              && WindowFrom(CursorAfter(windows, start), windowMonths, oosMonths).None?
  {
    var windows: seq<Window> := [];
    var cursor := start;
    while true
      invariant Chain(windows, start, end, windowMonths, oosMonths)
      invariant cursor == CursorAfter(windows, start) && (windowMonths == 0 ==> cursor == start)
      decreases if windowMonths > 0 then 9999 * 384 + 12 * 32 + 31 - Key(cursor) else Key(cursor)
    {
      var window := WindowFrom(cursor, windowMonths, oosMonths);
      if window.None? {
        return None;
      }
      if Key(window.value.oosEnd) > Key(end) {
        return Some(windows);
      }
      CursorMoves(cursor, windowMonths, oosMonths);
      windows := ExtendChain(windows, window.value, start, end, windowMonths, oosMonths);
      cursor := window.value.oosStart;
    }
  }

  function ExtendChain(windows: seq<Window>, w: Window, start: CivilDate, end: CivilDate, windowMonths: int,
                       oosMonths: int): (r: seq<Window>)
    requires Chain(windows, start, end, windowMonths, oosMonths)
    requires WindowFrom(CursorAfter(windows, start), windowMonths, oosMonths) == Some(w) && Key(w.oosEnd) <= Key(end)
    ensures Chain(r, start, end, windowMonths, oosMonths) && CursorAfter(r, start) == w.oosStart
  {
    assert forall i :: 0 <= i < |windows| ==> (windows + [w])[..i] == windows[..i];
    assert (windows + [w])[..|windows|] == windows;
    windows + [w]
  }

  /** The days from a date to the day before it is moved by some months. */
  lemma PartOrdered(from: CivilDate, months: int)
    requires AddMonths(from, months).Some? && PreviousDay(AddMonths(from, months).value).Some?
    ensures var after := AddMonths(from, months).value;
            var last := PreviousDay(after).value;
            && NextDay(last) == Some(after) && Key(last) < Key(after)
            && (months >= 1 ==> Key(from) <= Key(last))
  {
    var after := AddMonths(from, months).value;
    var last := PreviousDay(after).value;
    DaysAdjacent(after);
    if months >= 1 {
      NoMonths(from);
      MonthsMonotone(from, 0, months);
      NothingBetween(last, from);
    }
  }

  /** One window: its parts follow each other without a gap, and the out-of-sample part starts a whole move later. */
  lemma WindowOrdered(cursor: CivilDate, windowMonths: int, oosMonths: int)
    requires windowMonths >= 1 && WindowFrom(cursor, windowMonths, oosMonths).Some?
    ensures var w := WindowFrom(cursor, windowMonths, oosMonths).value;
            && Key(w.isStart) <= Key(w.isEnd) < Key(w.oosStart)
            && NextDay(w.isEnd) == Some(w.oosStart)
            && AddMonths(cursor, windowMonths) == Some(w.oosStart)
            && AddMonths(w.oosStart, oosMonths).Some?
               && PreviousDay(AddMonths(w.oosStart, oosMonths).value) == Some(w.oosEnd)
            && (oosMonths >= 1 ==> Key(w.oosStart) <= Key(w.oosEnd))
  {
    PartOrdered(cursor, windowMonths);
    PartOrdered(WindowFrom(cursor, windowMonths, oosMonths).value.oosStart, oosMonths);
  }

  /** The next cursor is the old one moved by the months, whatever their sign. */
  lemma CursorMoves(cursor: CivilDate, windowMonths: int, oosMonths: int)
    requires WindowFrom(cursor, windowMonths, oosMonths).Some?
    ensures var next := WindowFrom(cursor, windowMonths, oosMonths).value.oosStart;
            && AddMonths(cursor, windowMonths) == Some(next)
            && (Key(cursor) < Key(next) <==> windowMonths > 0)
            && (Key(next) < Key(cursor) <==> windowMonths < 0)
  {
    PartOrdered(cursor, windowMonths);
    NoMonths(cursor);
    MonthsMonotone(cursor, 0, windowMonths);
    MonthsMonotone(cursor, windowMonths, 0);
  }

  lemma ChainStep(windows: seq<Window>, start: CivilDate, end: CivilDate, windowMonths: int, oosMonths: int, i: int)
    requires Chain(windows, start, end, windowMonths, oosMonths) && 0 <= i < |windows|
    ensures WindowFrom(windows[i].isStart, windowMonths, oosMonths) == Some(windows[i])
    ensures windows[i].isStart == if i == 0 then start else windows[i - 1].oosStart
    ensures Key(windows[i].oosEnd) <= Key(end)
  {
    assert windows[..i] != [] ==> windows[..i][|windows[..i]| - 1] == windows[i - 1];
  }

  /** Every window lies in order inside the range. */
  lemma {:induction false} WindowsOrdered(windows: seq<Window>, start: CivilDate, end: CivilDate, windowMonths: int,
                                          oosMonths: int, i: int)
    requires windowMonths >= 1 && oosMonths >= 1
    requires Chain(windows, start, end, windowMonths, oosMonths) && 0 <= i < |windows|
    ensures var w := windows[i];
            && Key(start) <= Key(w.isStart) <= Key(w.isEnd) < Key(w.oosStart) <= Key(w.oosEnd) <= Key(end)
            && NextDay(w.isEnd) == Some(w.oosStart)
  {
    ChainStep(windows, start, end, windowMonths, oosMonths, i);
    WindowOrdered(windows[i].isStart, windowMonths, oosMonths);
    StartsAscend(windows, start, end, windowMonths, oosMonths, 0, i);
    ChainStep(windows, start, end, windowMonths, oosMonths, 0);
  }

  lemma NextStart(windows: seq<Window>, start: CivilDate, end: CivilDate, windowMonths: int, oosMonths: int, i: int)
    requires windowMonths >= 1 && Chain(windows, start, end, windowMonths, oosMonths) && 0 <= i < |windows| - 1
    ensures Key(windows[i].isStart) < Key(windows[i].oosStart) && windows[i + 1].isStart == windows[i].oosStart
  {
    ChainStep(windows, start, end, windowMonths, oosMonths, i);
    ChainStep(windows, start, end, windowMonths, oosMonths, i + 1);
    WindowOrdered(windows[i].isStart, windowMonths, oosMonths);
  }

  lemma {:induction false} StartsAscend(windows: seq<Window>, start: CivilDate, end: CivilDate, windowMonths: int,
                                        oosMonths: int, i: int, j: int)
    requires windowMonths >= 1 && Chain(windows, start, end, windowMonths, oosMonths) && 0 <= i <= j < |windows|
    ensures Key(windows[i].isStart) <= Key(windows[j].isStart)
    ensures i < j ==> Key(windows[i].oosStart) <= Key(windows[j].isStart)
    decreases j
  {
    if i < j {
      NextStart(windows, start, end, windowMonths, oosMonths, j - 1);
      StartsAscend(windows, start, end, windowMonths, oosMonths, i, j - 1);
    }
  }

  /** In-sample windows tile: the next one starts on the day after the last one ends, and no two share a day. */
  lemma {:induction false} InSampleTiles(windows: seq<Window>, start: CivilDate, end: CivilDate, windowMonths: int,
                                         oosMonths: int, i: int, j: int)
    requires windowMonths >= 1 && Chain(windows, start, end, windowMonths, oosMonths) && 0 <= i < j < |windows|
    ensures NextDay(windows[i].isEnd) == Some(windows[i + 1].isStart)
    ensures Key(windows[i].isEnd) < Key(windows[j].isStart)
  {
    ChainStep(windows, start, end, windowMonths, oosMonths, i);
    ChainStep(windows, start, end, windowMonths, oosMonths, i + 1);
    WindowOrdered(windows[i].isStart, windowMonths, oosMonths);
    StartsAscend(windows, start, end, windowMonths, oosMonths, i, j);
  }

  /** Two neighbouring out-of-sample windows: the earlier ends before the later starts exactly when o <= w. */
  lemma NeighboursDisjoint(windows: seq<Window>, start: CivilDate, end: CivilDate, windowMonths: int, oosMonths: int,
                           i: int)
    requires windowMonths >= 1 && Chain(windows, start, end, windowMonths, oosMonths) && 0 <= i < |windows| - 1
    ensures oosMonths <= windowMonths <==> Key(windows[i].oosEnd) < Key(windows[i + 1].oosStart)
  {
    ChainStep(windows, start, end, windowMonths, oosMonths, i);
    ChainStep(windows, start, end, windowMonths, oosMonths, i + 1);
    WindowOrdered(windows[i].isStart, windowMonths, oosMonths);
    WindowOrdered(windows[i + 1].isStart, windowMonths, oosMonths);
    var s := windows[i].oosStart;
    MonthsMonotone(s, windowMonths, oosMonths);
    var afterOos := AddMonths(s, oosMonths).value;
    DaysAdjacent(afterOos);
    NothingBetween(windows[i].oosEnd, windows[i + 1].oosStart);
  }

  lemma OosAfterStart(windows: seq<Window>, start: CivilDate, end: CivilDate, windowMonths: int, oosMonths: int, j: int)
    requires windowMonths >= 1 && Chain(windows, start, end, windowMonths, oosMonths) && 0 < j < |windows|
    ensures Key(windows[j - 1].oosStart) < Key(windows[j].oosStart)
  {
    ChainStep(windows, start, end, windowMonths, oosMonths, j);
    WindowOrdered(windows[j].isStart, windowMonths, oosMonths);
  }

  lemma {:induction false} OosAscend(windows: seq<Window>, start: CivilDate, end: CivilDate, windowMonths: int,
                                     oosMonths: int, i: int, j: int)
    requires 1 <= windowMonths && oosMonths <= windowMonths
    requires Chain(windows, start, end, windowMonths, oosMonths) && 0 <= i < j < |windows|
    ensures Key(windows[i].oosEnd) < Key(windows[j].oosStart)
    decreases j
  {
    if j == i + 1 {
      NeighboursDisjoint(windows, start, end, windowMonths, oosMonths, i);
    } else {
      OosAscend(windows, start, end, windowMonths, oosMonths, i, j - 1);
      OosAfterStart(windows, start, end, windowMonths, oosMonths, j);
    }
  }

  /** With at least two windows, the out-of-sample windows are pairwise disjoint exactly when o <= w. */
  lemma {:induction false} OutOfSampleDisjoint(windows: seq<Window>, start: CivilDate, end: CivilDate,
                                               windowMonths: int, oosMonths: int)
    requires windowMonths >= 1 && Chain(windows, start, end, windowMonths, oosMonths) && |windows| >= 2
    ensures oosMonths <= windowMonths <==>
              forall i, j :: 0 <= i < j < |windows| ==> Key(windows[i].oosEnd) < Key(windows[j].oosStart)
  {
    if oosMonths <= windowMonths {
      forall i, j | 0 <= i < j < |windows| ensures Key(windows[i].oosEnd) < Key(windows[j].oosStart) {
        OosAscend(windows, start, end, windowMonths, oosMonths, i, j);
      }
    } else {
      NeighboursDisjoint(windows, start, end, windowMonths, oosMonths, 0);
    }
  }

  lemma ZeroMonthsNeverAdvance(cursor: CivilDate, oosMonths: int)
    requires WindowFrom(cursor, 0, oosMonths).Some?
    ensures WindowFrom(cursor, 0, oosMonths).value.oosStart == cursor
  {
    NoMonths(cursor);
    DaysAdjacent(cursor);
  }

  /**
    The other half: windows of no months whose first one fits never reach the exit of the loop. After any number of
    windows there is a chain of that many, its cursor is back at the start, and the next window fits again.
  */
  lemma {:induction false} ZeroMonthsNeverEnd(start: CivilDate, end: CivilDate, oosMonths: int, n: nat)
    requires Fits(start, end, 0, oosMonths)
    ensures var windows := seq(n, _ => WindowFrom(start, 0, oosMonths).value);
            && Chain(windows, start, end, 0, oosMonths)
            && CursorAfter(windows, start) == start && Fits(CursorAfter(windows, start), end, 0, oosMonths)
  {
    var windows := seq(n, _ => WindowFrom(start, 0, oosMonths).value);
    ZeroMonthsNeverAdvance(start, oosMonths);
    assert forall i :: 0 < i <= n ==> windows[..i][|windows[..i]| - 1] == windows[i - 1];
  }

  /** A range on which the loop never ends: January 2020 with no months in sample and one out of sample. */
  lemma NoMonthsFit()
    ensures Fits(Date(2020, 1, 1), Date(2020, 1, 31), 0, 1)
  {
    assert AddMonths(Date(2020, 1, 1), 0) == Some(Date(2020, 1, 1));
    assert PreviousDay(Date(2020, 1, 1)) == Some(Date(2019, 12, 31));
    assert AddMonths(Date(2020, 1, 1), 1) == Some(Date(2020, 2, 1));
    assert PreviousDay(Date(2020, 2, 1)) == Some(Date(2020, 1, 31));
  }

  const YEAR_START: CivilDate := Date(2020, 1, 1)

  const FIRST_WINDOW: Window := Window(Date(2020, 1, 1), Date(2020, 1, 31), Date(2020, 2, 1), Date(2020, 3, 31))

  const SECOND_WINDOW: Window := Window(Date(2020, 2, 1), Date(2020, 2, 29), Date(2020, 3, 1), Date(2020, 4, 30))

  lemma FirstWindow()
    ensures WindowFrom(YEAR_START, 1, 2) == Some(FIRST_WINDOW)
  {
    assert AddMonths(Date(2020, 1, 1), 1) == Some(Date(2020, 2, 1));
    assert PreviousDay(Date(2020, 2, 1)) == Some(Date(2020, 1, 31));
    assert AddMonths(Date(2020, 2, 1), 2) == Some(Date(2020, 4, 1));
  }

  lemma SecondWindow()
    ensures WindowFrom(FIRST_WINDOW.oosStart, 1, 2) == Some(SECOND_WINDOW)
  {
    assert AddMonths(Date(2020, 2, 1), 1) == Some(Date(2020, 3, 1));
    assert PreviousDay(Date(2020, 3, 1)) == Some(Date(2020, 2, 29));
    assert AddMonths(Date(2020, 3, 1), 2) == Some(Date(2020, 5, 1));
  }

  /** Longer out-of-sample windows overlap: one month in sample and two out of sample, from the start of 2020. */
  lemma LongOutOfSampleOverlaps()
    ensures var windows := [FIRST_WINDOW, SECOND_WINDOW];
            && Chain(windows, YEAR_START, SECOND_WINDOW.oosEnd, 1, 2)
            && Key(windows[1].oosStart) <= Key(windows[0].oosEnd)
  {
    FirstWindow();
    SecondWindow();
    var windows := [FIRST_WINDOW, SECOND_WINDOW];
    assert windows[..0] == [] && windows[..1] == [FIRST_WINDOW];
    assert CursorAfter(windows[..1], YEAR_START) == FIRST_WINDOW.oosStart;
  }
}
