/** Weeks and months of the proleptic Gregorian calendar, over day numbers.
    A month is numbered 12 * year + (month - 1). */
module Calendar {
  import opened Domain

  type Month = int

  // ----- ISO weeks -----

  /** The Monday of the ISO week of a day.  Day 0, 1970-01-01, was a Thursday. */
  function IsoWeekStart(day: Day): Day {
    var weekday := (day + 4) % 7;             // Sunday is 0
    var isoWeekday := if weekday == 0 then 7 else weekday;
    day - (isoWeekday - 1)
  }

  /** Weeks are the seven-day windows that start on Mondays, and they partition the days. */
  lemma WeeksPartition(day: Day, monday: Day)
    requires IsoWeekStart(monday) == monday
    ensures IsoWeekStart(day) == monday <==> monday <= day <= monday + 6
  {
    WeekIndex(day);
    WeekIndex(monday);
  }

  /** Weeks counted from the Monday before day 0. */
  lemma WeekIndex(day: Day)
    ensures IsoWeekStart(day) == 7 * ((day + 3) / 7) - 3
  {
    var r := (day + 3) % 7;
    assert (day + 4) % 7 == if r == 6 then 0 else r + 1;
  }

  lemma WeekStartsOnMonday(day: Day)
    ensures IsoWeekStart(IsoWeekStart(day)) == IsoWeekStart(day) <= day
  {
    WeekIndex(day);
    WeekIndex(IsoWeekStart(day));
  }

  // ----- months -----

  predicate IsLeap(year: int) {
    year % 4 == 0 && (year % 100 != 0 || year % 400 == 0)
  }

  function DaysInMonth(m: Month): (n: int)
    ensures 28 <= n <= 31
  {
    var month := m % 12;
    if month == 1 then (if IsLeap(m / 12) then 29 else 28)
    else if month == 3 || month == 5 || month == 8 || month == 10 then 30
    else 31
  }

  /** January 1970, which starts on day 0. */
  const EPOCH_MONTH: Month := 12 * 1970

  /** The first day of a month, counted in month lengths from the epoch. */
  function MonthStart(m: Month): Day
    decreases if m < EPOCH_MONTH then EPOCH_MONTH - m else m - EPOCH_MONTH
  {
    if m == EPOCH_MONTH then 0
    else if m > EPOCH_MONTH then MonthStart(m - 1) + DaysInMonth(m - 1)
    else MonthStart(m + 1) - DaysInMonth(m)
  }

  /** The last day of a month, as AddDate(0, 1, -1) gives it from the first. */
  function MonthEnd(m: Month): Day {
    MonthStart(m + 1) - 1
  }

  lemma {:induction false} MonthStartIncreases(m: Month, m': Month)
    requires m < m'
    ensures MonthStart(m) + 28 <= MonthStart(m')
    decreases m' - m
  {
    assert MonthStart(m') == MonthStart(m' - 1) + DaysInMonth(m' - 1);
    if m < m' - 1 {
      MonthStartIncreases(m, m' - 1);
    }
  }

  function SearchForward(day: Day, m: Month): (r: Month)
    requires MonthStart(m) <= day
    ensures MonthStart(r) <= day <= MonthEnd(r)
    decreases day - MonthStart(m)
  {
    MonthStartIncreases(m, m + 1);
    if day <= MonthEnd(m) then m else SearchForward(day, m + 1)
  }

  function SearchBackward(day: Day, m: Month): (r: Month)
    requires day < MonthStart(m)
    ensures MonthStart(r) <= day <= MonthEnd(r)
    decreases MonthStart(m) - day
  {
    MonthStartIncreases(m - 1, m);
    if MonthStart(m - 1) <= day then m - 1 else SearchBackward(day, m - 1)
  }

  /** The month a day falls in. */
  function MonthOf(day: Day): (m: Month)
    ensures MonthStart(m) <= day <= MonthEnd(m)
  {
    if 0 <= day then SearchForward(day, EPOCH_MONTH) else SearchBackward(day, EPOCH_MONTH)
  }

  /** Months partition the days: a day lies between the bounds of exactly one,
      and no month has more than 31 days. */
  lemma MonthsPartition(day: Day, m: Month)
    ensures MonthOf(day) == m <==> MonthStart(m) <= day <= MonthEnd(m)
    ensures MonthEnd(m) - MonthStart(m) + 1 ==
      (if m % 12 == 1 then (if m / 12 % 4 == 0 && (m / 12 % 100 != 0 || m / 12 % 400 == 0) then 29 else 28)
       else if m % 12 == 3 || m % 12 == 5 || m % 12 == 8 || m % 12 == 10 then 30 else 31)
    ensures MonthEnd(m) - MonthStart(m) + 1 <= 31
  {
    var n := MonthOf(day);
    if n + 1 < m {
      MonthStartIncreases(n + 1, m);
    } else if m + 1 < n {
      MonthStartIncreases(m + 1, n);
    }
  }

  // ----- the calendar itself -----

  /** Weeks start on Mondays, and 1970-01-05, day 4, was one. */
  lemma MondayLaw(day: Day)
    ensures IsoWeekStart(day) <= day <= IsoWeekStart(day) + 6 && (IsoWeekStart(day) - 4) % 7 == 0
  {
    WeekIndex(day);
  }

  lemma NextMonth(m: Month)
    ensures MonthStart(m + 1) == MonthStart(m) + DaysInMonth(m)
  {
  }

  lemma MonthLength(year: int, k: nat)
    requires k < 12
    ensures MonthStart(12 * year + k + 1) - MonthStart(12 * year + k) ==
      if k == 1 then (if IsLeap(year) then 29 else 28) else if k == 3 || k == 5 || k == 8 || k == 10 then 30 else 31
  {
    var m := 12 * year + k;
    NextMonth(m);
    assert m / 12 == year && m % 12 == k;
    hide MonthStart, IsLeap;
  }

  /** The months of a year, January first: February has 29 days in every fourth
      year, but not in full centuries unless they are divisible by 400. */
  lemma MonthLengths(year: int)
    ensures var january := 12 * year;
      && MonthStart(january + 1) - MonthStart(january) == 31
      && MonthStart(january + 2) - MonthStart(january + 1) ==
           (if year % 4 == 0 && (year % 100 != 0 || year % 400 == 0) then 29 else 28)
      && MonthStart(january + 3) - MonthStart(january + 2) == 31
      && MonthStart(january + 4) - MonthStart(january + 3) == 30
      && MonthStart(january + 5) - MonthStart(january + 4) == 31
      && MonthStart(january + 6) - MonthStart(january + 5) == 30
      && MonthStart(january + 7) - MonthStart(january + 6) == 31
      && MonthStart(january + 8) - MonthStart(january + 7) == 31
      && MonthStart(january + 9) - MonthStart(january + 8) == 30
      && MonthStart(january + 10) - MonthStart(january + 9) == 31
      && MonthStart(january + 11) - MonthStart(january + 10) == 30
      && MonthStart(january + 12) - MonthStart(january + 11) == 31
  {
    hide MonthStart;
    MonthLength(year, 0);
    MonthLength(year, 1);
    MonthLength(year, 2);
    MonthLength(year, 3);
    MonthLength(year, 4);
    MonthLength(year, 5);
    MonthLength(year, 6);
    MonthLength(year, 7);
    MonthLength(year, 8);
    MonthLength(year, 9);
    MonthLength(year, 10);
    MonthLength(year, 11);
  }

  /** The first day of a year, from 1970 on and before: 365 days a year and one
      for each leap year between. */
  function YearStart(year: int): Day {
    365 * (year - 1970) + (year - 1) / 4 - (year - 1) / 100 + (year - 1) / 400 - 477
  }

  lemma LeapStep(year: int)
    ensures YearStart(year + 1) - YearStart(year) ==
      if year % 4 == 0 && (year % 100 != 0 || year % 400 == 0) then 366 else 365
  {
    QuotientStep(year, 4);
    QuotientStep(year, 100);
    QuotientStep(year, 400);
    Centuries(year);
  }

  lemma Centuries(year: int)
    ensures year % 100 == 0 ==> year % 4 == 0
    ensures year % 400 == 0 ==> year % 100 == 0
  {
    if year % 100 == 0 {
      Multiple(25 * (year / 100), 4);
      assert year == 4 * (25 * (year / 100));
    }
    if year % 400 == 0 {
      Multiple(4 * (year / 400), 100);
      assert year == 100 * (4 * (year / 400));
    }
  }

  lemma Multiple(n: int, d: int)
    requires d == 4 || d == 100
    ensures (d * n) % d == 0
  {
  }

  lemma QuotientStep(n: int, d: int)
    requires d == 4 || d == 100 || d == 400
    ensures n / d - (n - 1) / d == if n % d == 0 then 1 else 0
  {
  }

  lemma {:induction false} YearStarts(year: int)
    ensures MonthStart(12 * year) == YearStart(year)
    decreases if year < 1970 then 1970 - year else year - 1970
  {
    if year == 1970 {
    } else {
      hide MonthStart, YearStart;
      if year > 1970 {
        YearStarts(year - 1);
        MonthLengths(year - 1);
        LeapStep(year - 1);
        assert 12 * (year - 1) + 12 == 12 * year;
      } else {
        YearStarts(year + 1);
        MonthLengths(year);
        LeapStep(year);
        assert 12 * year + 12 == 12 * (year + 1);
      }
    }
  }

  /** January starts where the Gregorian calendar says, in every year. */
  lemma YearLaw(year: int)
    ensures MonthStart(12 * year) == 365 * (year - 1970) + (year - 1) / 4 - (year - 1) / 100 + (year - 1) / 400 - 477
  {
    YearStarts(year);
    hide MonthStart;
  }
}
