/**
 * Local calendar time and the three time-window classifiers isToday, isThisWeek
 * and isThisMonth. A timestamp is given by what Date's local getters return:
 * getFullYear, getMonth (0-based), getDate and the time of day in milliseconds.
 * The current instant `now` is a parameter instead of a read of the clock.
 */
module Calendar {

  const MsPerDay := 86_400_000

  /** The time that setHours(23, 59, 59, 999) gives: the last millisecond of a day. */
  const EndOfDayMs := 23 * 3_600_000 + 59 * 60_000 + 59 * 1000 + 999

  type Month = m: int | 0 <= m < 12
  type DayOfMonth = d: int | 1 <= d <= 31 witness 1
  type MsOfDay = ms: int | 0 <= ms < MsPerDay

  datatype LocalTime = LocalTime(year: int, month: Month, date: DayOfMonth, msOfDay: MsOfDay)

  /** The calendar day a timestamp falls on; Date.prototype.toDateString is a function of it alone. */
  datatype DayKey = DayKey(year: int, month: Month, date: DayOfMonth)

  function DayKeyOf(t: LocalTime): DayKey {
    DayKey(t.year, t.month, t.date)
  }

  predicate IsLeapYear(y: int) {
    y % 4 == 0 && (y % 100 != 0 || y % 400 == 0)
  }

  function DaysInMonth(y: int, m: Month): int {
    if m == 1 then (if IsLeapYear(y) then 29 else 28)
    else if m == 3 || m == 5 || m == 8 || m == 10 then 30
    else 31
  }

  /** The proleptic Gregorian calendar has a day `date` in month `month` of year `year`. */
  predicate ValidDate(t: LocalTime) {
    t.date <= DaysInMonth(t.year, t.month)
  }

  /** Days in the months of year y before month m (m == 12 gives the length of the year). */
  function DaysBeforeMonth(y: int, m: int): (r: int)
    requires 0 <= m <= 12
    ensures m == 12 ==> r == if IsLeapYear(y) then 366 else 365
  {
    var leap := if m >= 2 && IsLeapYear(y) then 1 else 0;
    [0, 31, 59, 90, 120, 151, 181, 212, 243, 273, 304, 334, 365][m] + leap
  }

  /** The number of leap years in (y0, y) counted from a fixed far-past origin. */
  function LeapsBefore(y: int): int {
    (y - 1) / 4 - (y - 1) / 100 + (y - 1) / 400
  }

  /** Days from 1 January 1970 to 1 January of year y. */
  function DaysBeforeYear(y: int): int {
    365 * (y - 1970) + LeapsBefore(y) - LeapsBefore(1970)
  }

  /** Days from 1 January 1970 to the local calendar day of t. */
  function DayNumber(t: LocalTime): int {
    DaysBeforeYear(t.year) + DaysBeforeMonth(t.year, t.month) + t.date - 1
  }

  /** Date.prototype.getDay for a day number: 0 is Sunday, and 1 January 1970 was a Thursday. */
  function Weekday(day: int): (w: int)
    ensures 0 <= w < 7
  {
    (day + 4) % 7
  }

  /** Milliseconds since local midnight of 1 January 1970: the order Date comparison uses. */
  function Instant(t: LocalTime): int {
    DayNumber(t) * MsPerDay + t.msOfDay
  }

  /** isToday (App.js): same date, month and year as now. */
  predicate IsToday(d: LocalTime, now: LocalTime) {
    d.date == now.date && d.month == now.month && d.year == now.year
  }

  /**
   * The day number of firstDayOfWeek in isThisWeek: now's day moved back by now's
   * weekday, so the Sunday that starts now's week.
   */
  function WeekStart(now: LocalTime): (first: int)
    ensures Weekday(first) == 0
    ensures first <= DayNumber(now) <= first + 6
  {
    SundayOnOrBefore(DayNumber(now))
  }

  /** The day number moved back by its weekday: the Sunday on or before it. */
  function SundayOnOrBefore(day: int): (first: int)
    ensures Weekday(first) == 0
    ensures first <= day <= first + 6
  {
    assert day + 4 - (day + 4) % 7 == 7 * ((day + 4) / 7);
    day - Weekday(day)
  }

  /** isThisWeek (App.js): d lies between 00:00:00.000 of the week's Sunday and 23:59:59.999 six days later. */
  predicate IsThisWeek(d: LocalTime, now: LocalTime) {
    var firstDayOfWeek := WeekStart(now) * MsPerDay;
    var lastDayOfWeek := (WeekStart(now) + 6) * MsPerDay + EndOfDayMs;
    firstDayOfWeek <= Instant(d) <= lastDayOfWeek
  }

  /** isThisMonth (App.js): same month and year as now. */
  predicate IsThisMonth(d: LocalTime, now: LocalTime) {
    d.month == now.month && d.year == now.year
  }

  /** The week window holds exactly the timestamps on the seven days from the week's Sunday to its Saturday. */
  lemma ThisWeekIffDayInWeek(d: LocalTime, now: LocalTime)
    ensures IsThisWeek(d, now) <==> WeekStart(now) <= DayNumber(d) <= WeekStart(now) + 6
  {
  }

  /** A timestamp on today's date lies in this week and in this month. */
  lemma TodayIsThisWeekAndMonth(d: LocalTime, now: LocalTime)
    requires IsToday(d, now)
    ensures IsThisWeek(d, now) && IsThisMonth(d, now)
  {
    assert DayNumber(d) == DayNumber(now);
    ThisWeekIffDayInWeek(d, now);
  }

  /** The week window is not contained in the month window: 26 February 2024 is in the week of Saturday 2 March 2024. */
  lemma WeekCanSpanMonths()
    ensures var d, now := LocalTime(2024, 1, 26, 0), LocalTime(2024, 2, 2, 0);
            ValidDate(d) && ValidDate(now) && IsThisWeek(d, now) && !IsThisMonth(d, now)
  {
    var d, now := LocalTime(2024, 1, 26, 0), LocalTime(2024, 2, 2, 0);
    assert DayNumber(now) == 19784;
    assert Weekday(19784) == 6;
    assert DayNumber(d) == 19779;
    ThisWeekIffDayInWeek(d, now);
  }

  // ----- the day number is one-to-one on valid dates -----

  lemma FloorStep4(y: int)
    ensures y / 4 - (y - 1) / 4 == if y % 4 == 0 then 1 else 0
  {
  }

  lemma FloorStep100(y: int)
    ensures y / 100 - (y - 1) / 100 == if y % 100 == 0 then 1 else 0
  {
  }

  lemma FloorStep400(y: int)
    ensures y / 400 - (y - 1) / 400 == if y % 400 == 0 then 1 else 0
  {
  }

  /** Consecutive years start a year's length apart. */
  lemma DaysBeforeYearStep(y: int)
    ensures DaysBeforeYear(y + 1) == DaysBeforeYear(y) + DaysBeforeMonth(y, 12)
  {
    FloorStep4(y);
    FloorStep100(y);
    FloorStep400(y);
  }

  /** Consecutive months start a month's length apart. */
  lemma DaysBeforeMonthStep(y: int, m: Month)
    ensures DaysBeforeMonth(y, m) + DaysInMonth(y, m) == DaysBeforeMonth(y, m + 1)
  {
  }

  lemma {:induction false} DaysBeforeYearMonotone(a: int, b: int)
    requires a <= b
    ensures DaysBeforeYear(a) <= DaysBeforeYear(b)
    decreases b - a
  {
    if a < b {
      DaysBeforeYearStep(a);
      DaysBeforeYearMonotone(a + 1, b);
    }
  }

  lemma {:induction false} DaysBeforeMonthMonotone(y: int, a: int, b: int)
    requires 0 <= a <= b <= 12
    ensures DaysBeforeMonth(y, a) <= DaysBeforeMonth(y, b)
    decreases b - a
  {
    if a < b {
      DaysBeforeMonthStep(y, a);
      DaysBeforeMonthMonotone(y, a + 1, b);
    }
  }

  /** A valid date's day number lies inside its own year and its own month. */
  lemma DayNumberBounds(t: LocalTime)
    requires ValidDate(t)
    ensures DaysBeforeYear(t.year) <= DayNumber(t) < DaysBeforeYear(t.year + 1)
    ensures DaysBeforeMonth(t.year, t.month) <= DayNumber(t) - DaysBeforeYear(t.year) < DaysBeforeMonth(t.year, t.month + 1)
  {
    DaysBeforeYearStep(t.year);
    DaysBeforeMonthStep(t.year, t.month);
    DaysBeforeMonthMonotone(t.year, t.month + 1, 12);
  }

  /** Two valid dates with the same day number are the same calendar day. */
  lemma DayNumberInjective(a: LocalTime, b: LocalTime)
    requires ValidDate(a) && ValidDate(b)
    requires DayNumber(a) == DayNumber(b)
    ensures DayKeyOf(a) == DayKeyOf(b)
  {
    SameDayNumberSameYear(a, b);
    SameDayNumberSameMonth(a, b);
  }

  lemma SameDayNumberSameYear(a: LocalTime, b: LocalTime)
    requires ValidDate(a) && ValidDate(b)
    requires DayNumber(a) == DayNumber(b)
    ensures a.year == b.year
  {
    DayNumberBounds(a);
    DayNumberBounds(b);
    if a.year < b.year {
      DaysBeforeYearMonotone(a.year + 1, b.year);
    } else if b.year < a.year {
      DaysBeforeYearMonotone(b.year + 1, a.year);
    }
  }

  lemma SameDayNumberSameMonth(a: LocalTime, b: LocalTime)
    requires ValidDate(a) && ValidDate(b)
    requires DayNumber(a) == DayNumber(b) && a.year == b.year
    ensures a.month == b.month
  {
    DayNumberBounds(a);
    DayNumberBounds(b);
    if a.month < b.month {
      DaysBeforeMonthMonotone(a.year, a.month + 1, b.month);
    } else if b.month < a.month {
      DaysBeforeMonthMonotone(a.year, b.month + 1, a.month);
    }
  }

  /** For valid dates, isToday holds exactly when d falls on now's calendar day. */
  lemma TodayIffSameDay(d: LocalTime, now: LocalTime)
    requires ValidDate(d) && ValidDate(now)
    ensures IsToday(d, now) <==> DayNumber(d) == DayNumber(now)
    ensures IsToday(d, now) <==> DayKeyOf(d) == DayKeyOf(now)
  {
    if DayNumber(d) == DayNumber(now) {
      DayNumberInjective(d, now);
    }
  }

  /** A later instant never falls on an earlier day. */
  lemma InstantOrdersDays(a: LocalTime, b: LocalTime)
    requires Instant(a) <= Instant(b)
    ensures DayNumber(a) <= DayNumber(b)
  {
  }
}
