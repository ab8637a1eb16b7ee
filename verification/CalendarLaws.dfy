/**
  The calendar of the walk-forward windows against independent counts: the next day has the next day number, and moving
  by months lands in the right month, on the same day of it or else on its last.
*/
module CalendarLaws {
  import opened Wrappers
  import opened WalkForward

  // ---- Days ----

  /** Days before a month in a year that is not a leap year. */
  function DaysBefore(month: int): int {
    if month <= 1 then 0
    else if month == 2 then 31
    else if month == 3 then 59
    else if month == 4 then 90
    else if month == 5 then 120
    else if month == 6 then 151
    else if month == 7 then 181
    else if month == 8 then 212
    else if month == 9 then 243
    else if month == 10 then 273
    else if month == 11 then 304
    else 334
  }

  /** Leap days before a year: every fourth, but no hundredth except every four hundredth. */
  function LeapDays(year: int): int {
    (year - 1) / 4 - (year - 1) / 100 + (year - 1) / 400
  }

  /** The number of a date, counting the first of January of the year 1 as day 1. */
  function DayNumber(d: CivilDate): int {
    (d.year - 1) * 365 + LeapDays(d.year) + DaysBefore(d.month)
    + (if d.month > 2 && LeapDays(d.year + 1) > LeapDays(d.year) then 1 else 0) + d.day
  }

  /** A leap year is one that adds a leap day. */
  lemma LeapYearsAdd(year: int)
    requires year >= 1
    ensures LeapDays(year + 1) - LeapDays(year) == if Leap(year) then 1 else 0
  {
    Fourths(year);
    Hundredths(year);
    FourHundredths(year);
  }

  lemma Fourths(year: int)
    ensures year / 4 - (year - 1) / 4 == if year % 4 == 0 then 1 else 0
  {
  }

  lemma Hundredths(year: int)
    ensures year / 100 - (year - 1) / 100 == if year % 100 == 0 then 1 else 0
    ensures year % 100 == 0 ==> year % 4 == 0
  {
    var q, r := year / 100, year % 100;
    assert year == 100 * q + r;
    if r == 0 {
      assert year - 1 == 100 * (q - 1) + 99;
      assert year == 4 * (25 * q);
    } else {
      assert year - 1 == 100 * q + (r - 1);
    }
  }

  lemma FourHundredths(year: int)
    ensures year / 400 - (year - 1) / 400 == if year % 400 == 0 then 1 else 0
    ensures year % 400 == 0 ==> year % 100 == 0
  {
    var q, r := year / 400, year % 400;
    assert year == 400 * q + r;
    if r == 0 {
      assert year - 1 == 400 * (q - 1) + 399;
      assert year == 100 * (4 * q);
    } else {
      assert year - 1 == 400 * q + (r - 1);
    }
  }

  /** The next day is the one with the next number; only the last day of the calendar has none. */
  lemma NextDayCounts(d: CivilDate)
    ensures NextDay(d).Some? ==> DayNumber(NextDay(d).value) == DayNumber(d) + 1
    ensures NextDay(d).None? <==> d == Date(9999, 12, 31)
  {
    LeapYearsAdd(d.year);
  }

  lemma PreviousDayCounts(d: CivilDate)
    ensures PreviousDay(d).Some? ==> DayNumber(PreviousDay(d).value) == DayNumber(d) - 1
    ensures PreviousDay(d).None? <==> d == Date(1, 1, 1)
  {
    DaysAdjacent(d);
    if PreviousDay(d).Some? { NextDayCounts(PreviousDay(d).value); }
  }

  /** The number of a date within its year. */
  lemma WithinYear(d: CivilDate)
    ensures var first := (d.year - 1) * 365 + LeapDays(d.year);
            first < DayNumber(d) <= first + 365 + LeapDays(d.year + 1) - LeapDays(d.year)
  {
    LeapYearsAdd(d.year);
  }

  /** The number orders dates as the calendar does. */
  lemma NumbersAscend(d: CivilDate, e: CivilDate)
    ensures Key(d) < Key(e) ==> DayNumber(d) < DayNumber(e)
  {
    if d.year < e.year {
      WithinYear(d);
      WithinYear(e);
      LeapDaysRise(d.year + 1, e.year);
    } else if d.year == e.year {
      LeapYearsAdd(d.year);
    }
  }

  lemma LeapDaysRise(y: int, z: int)
    requires 1 <= y <= z
    ensures LeapDays(y) <= LeapDays(z)
    decreases z - y
  {
    if y < z {
      LeapYearsAdd(z - 1);
      LeapDaysRise(y, z - 1);
    }
  }

  // ---- Months ----

  /** Months since the beginning of the calendar. */
  function MonthNumber(d: CivilDate): int { d.year * 12 + d.month }

  /** The last day of its month: the next day, if there is one, lies in another. */
  ghost predicate LastOfMonth(d: CivilDate) {
    NextDay(d).Some? ==> MonthNumber(NextDay(d).value) != MonthNumber(d)
  }

  /** e lies k months after d, on the same day of the month if that month has it, and else on its last day. */
  ghost predicate MonthsLater(d: CivilDate, k: int, e: CivilDate) {
    && MonthNumber(e) == MonthNumber(d) + k
    && (e.day == d.day || (e.day < d.day && LastOfMonth(e)))
  }

  /** There is one such date at most, and moving by months finds it unless it lies outside the calendar. */
  lemma AddMonthsExactly(d: CivilDate, k: int)
    ensures AddMonths(d, k).Some? ==> MonthsLater(d, k, AddMonths(d, k).value)
    ensures AddMonths(d, k).None? <==> MonthNumber(d) + k < 13 || MonthNumber(d) + k > 9999 * 12 + 12
    ensures forall e: CivilDate :: MonthsLater(d, k, e) ==> AddMonths(d, k) == Some(e)
  {
    var months := d.year * 12 + d.month - 1 + k;
    assert months / 12 * 12 + months % 12 == months;
    forall e: CivilDate | MonthsLater(d, k, e) ensures AddMonths(d, k) == Some(e) {
      assert e.year * 12 + (e.month - 1) == months;
      Twelfths(months, e.year, e.month - 1);
      ClampIsOne(d, e);
    }
  }

  lemma Twelfths(months: int, year: int, rest: int)
    requires months == year * 12 + rest && 0 <= rest < 12
    ensures months / 12 == year && months % 12 == rest
  {
  }

  lemma ClampIsOne(d: CivilDate, e: CivilDate)
    requires e.day == d.day || (e.day < d.day && LastOfMonth(e))
    ensures e.day == if d.day <= DaysIn(e.year, e.month) then d.day else DaysIn(e.year, e.month)
  {
    if e.day < DaysIn(e.year, e.month) { assert NextDay(e) == Some(Date(e.year, e.month, e.day + 1)); }
  }

  // ---- Windows ----

  /**
    A window begins at the cursor; its out-of-sample part begins the months of the window later and its end lies one
    day before the out-of-sample months after that; the in-sample part ends on the day before the out-of-sample part.
  */
  ghost predicate PartsAre(cursor: CivilDate, windowMonths: int, oosMonths: int, w: Window) {
    && w.isStart == cursor && MonthsLater(cursor, windowMonths, w.oosStart)
    && DayNumber(w.isEnd) == DayNumber(w.oosStart) - 1
    && exists next: CivilDate :: MonthsLater(w.oosStart, oosMonths, next) && DayNumber(w.oosEnd) == DayNumber(next) - 1
  }

  lemma WindowParts(cursor: CivilDate, windowMonths: int, oosMonths: int)
    requires WindowFrom(cursor, windowMonths, oosMonths).Some?
    ensures PartsAre(cursor, windowMonths, oosMonths, WindowFrom(cursor, windowMonths, oosMonths).value)
  {
    var w := WindowFrom(cursor, windowMonths, oosMonths).value;
    AddMonthsExactly(cursor, windowMonths);
    var oosStart := AddMonths(cursor, windowMonths).value;
    DaysAdjacent(oosStart);
    PreviousDayCounts(oosStart);
    AddMonthsExactly(oosStart, oosMonths);
    PreviousDayCounts(AddMonths(oosStart, oosMonths).value);
    assert MonthsLater(w.oosStart, oosMonths, AddMonths(oosStart, oosMonths).value);
  }

  lemma NumberIsOne(d: CivilDate, e: CivilDate)
    requires DayNumber(d) == DayNumber(e)
    ensures d == e
  {
    KeyIsLexicographic(d, e);
    NumbersAscend(d, e);
    NumbersAscend(e, d);
  }

  lemma DayBefore(d: CivilDate, e: CivilDate)
    requires DayNumber(e) == DayNumber(d) - 1
    ensures PreviousDay(d) == Some(e)
  {
    PreviousDayCounts(d);
    WithinYear(e);
    if PreviousDay(d).Some? { NumberIsOne(PreviousDay(d).value, e); }
  }

  /** There is a window wherever dates of the calendar make up its parts; it is the only one. */
  lemma WindowExists(cursor: CivilDate, windowMonths: int, oosMonths: int, w: Window)
    requires PartsAre(cursor, windowMonths, oosMonths, w)
    ensures WindowFrom(cursor, windowMonths, oosMonths) == Some(w)
  {
    var next: CivilDate :| MonthsLater(w.oosStart, oosMonths, next) && DayNumber(w.oosEnd) == DayNumber(next) - 1;
    AddMonthsExactly(cursor, windowMonths);
    DayBefore(w.oosStart, w.isEnd);
    DaysAdjacent(w.oosStart);
    AddMonthsExactly(w.oosStart, oosMonths);
    DayBefore(next, w.oosEnd);
  }

  /** Every window of a range has these parts, from where the out-of-sample part before it began. */
  lemma ChainParts(windows: seq<Window>, start: CivilDate, end: CivilDate, windowMonths: int, oosMonths: int, i: int)
    requires Chain(windows, start, end, windowMonths, oosMonths) && 0 <= i < |windows|
    ensures PartsAre(if i == 0 then start else windows[i - 1].oosStart, windowMonths, oosMonths, windows[i])
    ensures DayNumber(windows[i].oosEnd) <= DayNumber(end)
  {
    WindowParts(CursorAfter(windows[..i], start), windowMonths, oosMonths);
    NumbersRise(windows[i].oosEnd, end);
  }

  lemma NumbersRise(d: CivilDate, e: CivilDate)
    requires Key(d) <= Key(e)
    ensures DayNumber(d) <= DayNumber(e)
  {
    KeyIsLexicographic(d, e);
    NumbersAscend(d, e);
  }
}
