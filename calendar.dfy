/** Calendar arithmetic behind getDayOfYear, which both the page and the generator define
    identically. A JavaScript Date is a count of milliseconds on the proleptic Gregorian
    calendar; here a local point in time is a calendar date plus the milliseconds since
    local midnight, and the time value is rebuilt from them. */
module Calendar {

  const MsPerDay: int := 1000 * 60 * 60 * 24

  /** A calendar date. `month` runs 1..12 (a JavaScript Date numbers months 0..11). */
  datatype Date = Date(year: int, month: int, day: int)

  /** A local point in time: a date and the milliseconds elapsed since its midnight. */
  datatype Instant = Instant(date: Date, msOfDay: int)

  predicate IsLeapYear(y: int) {
    y % 4 == 0 && (y % 100 != 0 || y % 400 == 0)
  }

  function DaysInYear(y: int): int {
    if IsLeapYear(y) then 366 else 365
  }

  function DaysInMonth(y: int, m: int): (n: int)
    requires 1 <= m <= 12
    ensures 28 <= n <= 31
  {
    if m == 2 then (if IsLeapYear(y) then 29 else 28)
    else if m == 4 || m == 6 || m == 9 || m == 11 then 30
    else 31
  }

  /** Days of year y that lie before the first of month m (m == 13: the whole year). */
  function DaysBeforeMonth(y: int, m: int): int
    requires 1 <= m <= 13
  {
    var leap := if IsLeapYear(y) then 1 else 0;
    match m
    case 1 => 0
    case 2 => 31
    case 3 => 59 + leap
    case 4 => 90 + leap
    case 5 => 120 + leap
    case 6 => 151 + leap
    case 7 => 181 + leap
    case 8 => 212 + leap
    case 9 => 243 + leap
    case 10 => 273 + leap
    case 11 => 304 + leap
    case 12 => 334 + leap
    case _ => 365 + leap
  }

  predicate ValidDate(d: Date) {
    1 <= d.month <= 12 && 1 <= d.day <= DaysInMonth(d.year, d.month)
  }

  predicate ValidInstant(t: Instant) {
    ValidDate(t.date) && 0 <= t.msOfDay < MsPerDay
  }

  /** Days from 1 January of year 1 to 1 January of year y (negative for earlier years). */
  function DaysBeforeYear(y: int): int {
    var p := y - 1;
    365 * p + p / 4 - p / 100 + p / 400
  }

  /** The day number of `new Date(y, m - 1, d)`. As in JavaScript, `d` may lie outside the
      month: day 0 is the last day of the month before. */
  function DayNumber(y: int, m: int, d: int): int
    requires 1 <= m <= 12
  {
    DaysBeforeYear(y) + DaysBeforeMonth(y, m) + d - 1
  }

  /** The time value of t in milliseconds. */
  function TimeValue(t: Instant): int
    requires 1 <= t.date.month <= 12
  {
    DayNumber(t.date.year, t.date.month, t.date.day) * MsPerDay + t.msOfDay
  }

  /** getDayOfYear: the whole days from the anchor `new Date(year, 0, 0)` (the midnight that
      starts 31 December of the year before) to t, rounded down. The result is the ordinal of
      t's date in its year. */
  function DayOfYear(t: Instant): (n: int)
    requires ValidInstant(t)
    ensures n == DaysBeforeMonth(t.date.year, t.date.month) + t.date.day
    ensures 1 <= n <= DaysInYear(t.date.year)
  {
    var start := DayNumber(t.date.year, 1, 0) * MsPerDay;
    var diff := TimeValue(t) - start;
    FloorOfWholeDays(DaysBeforeMonth(t.date.year, t.date.month) + t.date.day, t.msOfDay);
    MonthFitsInYear(t.date.year, t.date.month);
    diff / MsPerDay
  }

  lemma FloorOfWholeDays(days: int, ms: int)
    requires 0 <= ms < MsPerDay
    ensures (days * MsPerDay + ms) / MsPerDay == days
  {
  }

  /** The months tile the year: each month starts where the one before it ends. */
  lemma DaysBeforeMonthStep(y: int, m: int)
    requires 1 <= m <= 12
    ensures DaysBeforeMonth(y, m + 1) == DaysBeforeMonth(y, m) + DaysInMonth(y, m)
    ensures DaysBeforeMonth(y, 13) == DaysInYear(y)
  {
  }

  lemma MonthFitsInYear(y: int, m: int)
    requires 1 <= m <= 12
    ensures DaysBeforeMonth(y, m) + DaysInMonth(y, m) <= DaysInYear(y)
  {
    DaysBeforeMonthStep(y, m);
    DaysBeforeMonthMonotone(y, m + 1, 13);
  }

  lemma {:induction false} DaysBeforeMonthMonotone(y: int, m1: int, m2: int)
    requires 1 <= m1 <= m2 <= 13
    ensures DaysBeforeMonth(y, m1) + (m2 - m1) * 28 <= DaysBeforeMonth(y, m2)
    decreases m2 - m1
  {
    if m1 < m2 {
      DaysBeforeMonthStep(y, m1);
      DaysBeforeMonthMonotone(y, m1 + 1, m2);
    }
  }

  /** The closed-form year count agrees with the leap-year rule. */
  lemma DaysBeforeYearStep(y: int)
    ensures DaysBeforeYear(y + 1) - DaysBeforeYear(y) == DaysInYear(y)
  {
    MultiplesStep(y - 1, 4);
    MultiplesStep(y - 1, 100);
    MultiplesStep(y - 1, 400);
  }

  /** Moving from p to p + 1 passes one more multiple of k exactly when p + 1 is one. */
  lemma MultiplesStep(p: int, k: int)
    requires k > 0
    ensures (p + 1) / k - p / k == if (p + 1) % k == 0 then 1 else 0
  {
    var q, r := p / k, p % k;
    assert p == k * q + r && 0 <= r < k;
    if r == k - 1 {
      assert p + 1 == k * (q + 1) + 0;
      QuotientOf(p + 1, k, q + 1, 0);
    } else {
      assert p + 1 == k * q + (r + 1);
      QuotientOf(p + 1, k, q, r + 1);
    }
  }

  lemma QuotientOf(a: int, k: int, q: int, r: int)
    requires k > 0 && a == k * q + r && 0 <= r < k
    ensures a / k == q && a % k == r
  {
    var q', r' := a / k, a % k;
    assert k * q' + r' == k * q + r;
    if q' > q {
      ScaleMonotone(k, q + 1, q');
    } else if q' < q {
      ScaleMonotone(k, q' + 1, q);
    }
  }

  lemma ScaleMonotone(k: int, a: int, b: int)
    requires k > 0 && a <= b
    ensures k * a + k * (b - a) == k * b && k * (b - a) >= 0
  {
  }

  /** The anchor `new Date(y, 0, 0)` that getDayOfYear counts from is 31 December of the year
      before. */
  lemma AnchorIsNewYearsEve(y: int)
    ensures DayNumber(y, 1, 0) == DayNumber(y - 1, 12, 31)
  {
    DaysBeforeYearStep(y - 1);
    DaysBeforeMonthStep(y - 1, 12);
  }

  /** Calendar order of two dates of one year. */
  predicate Before(a: Date, b: Date) {
    a.month < b.month || (a.month == b.month && a.day < b.day)
  }

  /** DayOfYear preserves and reflects calendar order within a year. */
  lemma DayOfYearOrder(s: Instant, t: Instant)
    requires ValidInstant(s) && ValidInstant(t) && s.date.year == t.date.year
    ensures Before(s.date, t.date) <==> DayOfYear(s) < DayOfYear(t)
  {
    var y := t.date.year;
    if s.date.month < t.date.month {
      MonthFitsInYear(y, s.date.month);
      DaysBeforeMonthStep(y, s.date.month);
      DaysBeforeMonthMonotone(y, s.date.month + 1, t.date.month);
    } else if t.date.month < s.date.month {
      MonthFitsInYear(y, t.date.month);
      DaysBeforeMonthStep(y, t.date.month);
      DaysBeforeMonthMonotone(y, t.date.month + 1, s.date.month);
    }
  }

  /** The month holding ordinal n of year y, searching down from month m. */
  function MonthOfOrdinal(y: int, n: int, m: int): (r: int)
    requires 1 <= m <= 12 && 1 <= n
    ensures 1 <= r <= m && DaysBeforeMonth(y, r) < n
    ensures n <= DaysBeforeMonth(y, m + 1) ==> n <= DaysBeforeMonth(y, r + 1)
  {
    if DaysBeforeMonth(y, m) < n then m else MonthOfOrdinal(y, n, m - 1)
  }

  /** The date whose ordinal in year y is n: the inverse of DayOfYear. */
  function DateOfOrdinal(y: int, n: int): Date
    requires 1 <= n <= DaysInYear(y)
  {
    var m := MonthOfOrdinal(y, n, 12);
    Date(y, m, n - DaysBeforeMonth(y, m))
  }

  lemma DateOfOrdinalInverse(y: int, n: int)
    requires 1 <= n <= DaysInYear(y)
    ensures ValidDate(DateOfOrdinal(y, n))
    ensures DayOfYear(Instant(DateOfOrdinal(y, n), 0)) == n
  {
    var m := MonthOfOrdinal(y, n, 12);
    DaysBeforeMonthStep(y, 12);
    DaysBeforeMonthStep(y, m);
  }

  lemma DayOfYearInverse(t: Instant)
    requires ValidInstant(t)
    ensures DateOfOrdinal(t.date.year, DayOfYear(t)) == t.date
  {
    var y, m := t.date.year, t.date.month;
    var n := DayOfYear(t);
    var r := MonthOfOrdinal(y, n, 12);
    DaysBeforeMonthStep(y, m);
    DaysBeforeMonthStep(y, 12);
    if r < m {
      DaysBeforeMonthMonotone(y, r + 1, m);
    } else if m < r {
      DaysBeforeMonthMonotone(y, m + 1, r);
    }
  }

  /** 1 January is day 1, whatever the time of day. */
  lemma NewYearIsDayOne(y: int, ms: int)
    requires 0 <= ms < MsPerDay
    ensures DayOfYear(Instant(Date(y, 1, 1), ms)) == 1
  {
  }

  /** 1 March is day 61 in a leap year and day 60 otherwise. */
  lemma FirstOfMarch(y: int)
    ensures DayOfYear(Instant(Date(y, 3, 1), 0)) == if IsLeapYear(y) then 61 else 60
  {
  }

  /** The date the generator's override comment names, 2026-06-01, is day 152. */
  lemma OverrideExampleDay()
    ensures DayOfYear(Instant(Date(2026, 6, 1), 0)) == 152
  {
  }

  /** 31 December of a leap year is day 366. */
  lemma LeapYearEnd(y: int)
    requires IsLeapYear(y)
    ensures DayOfYear(Instant(Date(y, 12, 31), 0)) == 366
  {
  }
}
