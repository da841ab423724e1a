/**
 * Dates as the dashboard uses them: a point in time with the calendar
 * accessors `getFullYear`, `getMonth` (0 for January) and the day, plus an
 * order key `Time` standing for `getTime()`. Only the comparisons the code
 * makes are meaningful; the exact millisecond count is abstracted.
 */
module Dates {

  /** Milliseconds in a day; `setHours(23, 59, 59, 999)` sets the last of them. */
  const DayMs: int := 86400000

  datatype Instant = Instant(year: int, month: int, day: int, msOfDay: int)

  predicate ValidInstant(i: Instant)
  {
    0 <= i.month < 12 && 1 <= i.day <= 31 && 0 <= i.msOfDay < DayMs
  }

  /** A date that `new Date(...)` parsed successfully (not an Invalid Date). */
  type Date = i: Instant | ValidInstant(i) witness Instant(1970, 0, 1, 0)

  /** Consecutive months are consecutive integers: the key of `getFullYear()`/`getMonth()`. */
  function MonthIndex(year: int, month: int): int
  {
    year * 12 + month
  }

  /** Consecutive calendar days are increasing integers. */
  function DayIndex(d: Date): int
  {
    MonthIndex(d.year, d.month) * 32 + d.day
  }

  /** The order key of a date, standing for `getTime()`. */
  function Time(d: Date): int
  {
    DayIndex(d) * DayMs + d.msOfDay
  }

  /** A date on an earlier calendar day is earlier in time. */
  lemma EarlierDayIsEarlier(a: Date, b: Date)
    requires DayIndex(a) < DayIndex(b)
    ensures Time(a) < Time(b)
  {
  }

  /** The previous month of (year, month): December of the year before for January. */
  function PreviousMonth(year: int, month: int): (r: (int, int))
    requires 0 <= month < 12
    ensures 0 <= r.1 < 12
    ensures MonthIndex(r.0, r.1) + 1 == MonthIndex(year, month)
  {
    if month == 0 then (year - 1, 11) else (year, month - 1)
  }

  /** The month a date falls in. */
  predicate InMonth(d: Date, year: int, month: int)
  {
    d.year == year && d.month == month
  }

  /** `setHours(23, 59, 59, 999)`: the last millisecond of the same day. */
  function EndOfDay(d: Date): (r: Date)
    ensures r.year == d.year && r.month == d.month && r.day == d.day
    ensures Time(d) <= Time(r)
  {
    d.(msOfDay := DayMs - 1)
  }

  /**
   * Comparing against the end of day `d` keeps exactly the dates on that day
   * or before it.
   */
  lemma EndOfDayBound(e: Date, d: Date)
    ensures Time(e) <= Time(EndOfDay(d)) <==> DayIndex(e) <= DayIndex(d)
  {
    if DayIndex(e) > DayIndex(d) {
      EarlierDayIsEarlier(EndOfDay(d), e);
    }
  }
}
