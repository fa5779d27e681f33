/**
 * What the booking code reads from a JavaScript `Date`: its local calendar
 * fields (`getFullYear()`, zero-based `getMonth()`, `getDate()`), its weekday
 * (`getDay()`, Sunday = 0) and its position on the time line. Dates follow the
 * proleptic Gregorian calendar, as JavaScript's do.
 */
module Calendar {
  import opened Text

  datatype CalendarDate = CalendarDate(year: int, month: int, day: int)

  predicate IsLeapYear(y: int) { (y % 4 == 0 && y % 100 != 0) || y % 400 == 0 }

  function DaysInMonth(y: int, m: int): (n: nat)
    requires 0 <= m < 12
    ensures 28 <= n <= 31
  {
    if m == 1 then (if IsLeapYear(y) then 29 else 28)
    else if m == 3 || m == 5 || m == 8 || m == 10 then 30
    else 31
  }

  predicate ValidDate(d: CalendarDate)
  {
    0 <= d.month < 12 && 1 <= d.day <= DaysInMonth(d.year, d.month)
  }

  /** A JavaScript `Date` that holds a real date: its fields never overflow. */
  type JsDate = d: CalendarDate | ValidDate(d) witness CalendarDate(1970, 0, 1)

  function MonthOffset(m: int): nat
    requires 0 <= m < 12
  {
    [0, 3, 2, 5, 0, 3, 5, 1, 4, 6, 2, 4][m]
  }

  /** `date.getDay()` (Sakamoto's rule; Sunday = 0). */
  function DayOfWeek(d: CalendarDate): (w: nat)
    requires 0 <= d.month < 12
    ensures w < 7
  {
    var y := if d.month < 2 then d.year - 1 else d.year;
    (y + y / 4 - y / 100 + y / 400 + MonthOffset(d.month) + d.day) % 7
  }

  /** The weekday moves on by one with every day of the month. */
  lemma DayOfWeekStep(y: int, m: int, k: int)
    requires 0 <= m < 12
    ensures DayOfWeek(CalendarDate(y, m, k + 1)) == (DayOfWeek(CalendarDate(y, m, k)) + 1) % 7
  {
  }

  /** Calendar order of days: year, then month, then day. */
  predicate DayBefore(a: CalendarDate, b: CalendarDate)
  {
    a.year < b.year ||
    (a.year == b.year && (a.month < b.month || (a.month == b.month && a.day < b.day)))
  }

  /** A point in time: a local day and the milliseconds elapsed since its midnight. */
  datatype Instant = Instant(date: JsDate, millis: nat)

  /** date-fns `isBefore(a, b)`. */
  predicate InstantBefore(a: Instant, b: Instant)
  {
    DayBefore(a.date, b.date) || (a.date == b.date && a.millis < b.millis)
  }

  /** date-fns `isSameDay(a, b)`. */
  predicate SameDay(a: Instant, b: Instant) { a.date == b.date }

  /** The plain `YYYY-MM-DD` shape: the server's `/^\d{4}-\d{2}-\d{2}$/`. */
  predicate IsYMD(s: string)
  {
    |s| == 10 && s[4] == '-' && s[7] == '-' &&
    AllDigits(s[..4]) && AllDigits(s[5..7]) && AllDigits(s[8..])
  }
}
