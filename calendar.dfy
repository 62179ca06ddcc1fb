/** Calendar days and wall-clock readings, as far as the queries and the
    token claims use them: `DATE(...)` casts yield a `Date`, `time.Now()`
    yields nanoseconds since the Unix epoch, and `Unix()` truncates that to
    whole seconds. */
module Calendar {

  datatype Date = Date(year: int, month: int, day: int)

  /** Go's zero `time.Time` (0001-01-01), what a failed `time.Parse` returns. */
  const ZeroDate: Date := Date(1, 1, 1)

  const NanosPerSecond: int := 1_000_000_000

  /** `t.Unix()`: whole seconds, rounding towards minus infinity (a Go time
      keeps its nanoseconds in [0, 1e9), so the seconds part is a floor). */
  function UnixSeconds(nanos: int): (s: int)
    ensures s * NanosPerSecond <= nanos < (s + 1) * NanosPerSecond
  {
    nanos / NanosPerSecond
  }

  /** Adding a whole number of seconds to a clock reading adds exactly that
      many seconds to its Unix value. */
  lemma UnixSecondsShift(nanos: int, seconds: int)
    ensures UnixSeconds(nanos + seconds * NanosPerSecond) == UnixSeconds(nanos) + seconds
  {
    var q, r := nanos / NanosPerSecond, nanos % NanosPerSecond;
    assert nanos == q * NanosPerSecond + r;
    assert nanos + seconds * NanosPerSecond == (q + seconds) * NanosPerSecond + r;
  }

  /** A later clock reading never has a smaller Unix value. */
  lemma UnixSecondsMonotone(a: int, b: int)
    requires a <= b
    ensures UnixSeconds(a) <= UnixSeconds(b)
  {
  }

  /** Calendar order: year, then month, then day. */
  predicate DateLe(a: Date, b: Date)
  {
    a.year < b.year
    || (a.year == b.year && a.month < b.month)
    || (a.year == b.year && a.month == b.month && a.day <= b.day)
  }

  predicate IsLeapYear(y: int)
  {
    y % 4 == 0 && (y % 100 != 0 || y % 400 == 0)
  }

  function DaysInMonth(y: int, m: int): (n: int)
    requires 1 <= m <= 12
    ensures 28 <= n <= 31
    ensures m == 2 ==> (n == 29 <==> IsLeapYear(y))
  {
    if m == 2 then (if IsLeapYear(y) then 29 else 28)
    else if m == 4 || m == 6 || m == 9 || m == 11 then 30
    else 31
  }

  predicate ValidDate(d: Date)
  {
    1 <= d.month <= 12 && 1 <= d.day <= DaysInMonth(d.year, d.month)
  }

  /** `time.Date(now.Year(), now.Month(), 1, 0, 0, 0, 0, time.Local)`. */
  function FirstDayOfMonth(today: Date): (d: Date)
    requires ValidDate(today)
    ensures ValidDate(d) && d.day == 1 && DateLe(d, today)
  {
    Date(today.year, today.month, 1)
  }

  /** `firstDayOfMonth.AddDate(0, 1, -1)`: Go normalises day 0 of the next
      month to the last day of this one. */
  function LastDayOfMonth(today: Date): (d: Date)
    requires ValidDate(today)
    ensures ValidDate(d) && DateLe(today, d)
    ensures d.year == today.year && d.month == today.month
    ensures forall e :: ValidDate(e) && e.year == d.year && e.month == d.month ==> e.day <= d.day
  {
    Date(today.year, today.month, DaysInMonth(today.year, today.month))
  }

  /** The month window `BETWEEN firstDayOfMonth AND lastDayOfMonth` holds
      exactly the valid days of the current month. */
  lemma MonthWindowIsMonth(today: Date, d: Date)
    requires ValidDate(today) && ValidDate(d)
    ensures DateLe(FirstDayOfMonth(today), d) && DateLe(d, LastDayOfMonth(today))
            <==> d.year == today.year && d.month == today.month
  {
  }
}
