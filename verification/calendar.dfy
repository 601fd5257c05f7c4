/**
 * The calendar behind `datetime(year, month, day, hour, minute, second,
 * microsecond)`: which component tuples the constructor accepts, and the
 * instant, counted in microseconds, that an accepted tuple denotes.
 *
 * Instants are counted on the proleptic Gregorian ordinal scale of Python's
 * `datetime` module (0001-01-01 is day 1), so adding a `timedelta` to a
 * naive `datetime` is adding microseconds to its instant.
 */
module Calendar {

  const MinYear := 1
  const MaxYear := 9999
  const MicrosPerSecond := 1_000_000
  const MicrosPerDay := 86_400_000_000

  /** The seven fields of a naive `datetime`, in constructor order. */
  datatype Components = Components(
    year: int, month: int, day: int,
    hour: int, minute: int, second: int, microsecond: int)

  predicate IsLeap(year: int) {
    year % 4 == 0 && (year % 100 != 0 || year % 400 == 0)
  }

  function DaysInYear(year: int): int {
    if IsLeap(year) then 366 else 365
  }

  function DaysInMonth(year: int, month: int): (n: int)
    requires 1 <= month <= 12
    ensures 28 <= n <= 31
    ensures n == 29 <==> month == 2 && IsLeap(year)
  {
    if month == 2 && IsLeap(year) then 29
    else [31, 28, 31, 30, 31, 30, 31, 31, 30, 31, 30, 31][month - 1]
  }

  /** Days in the months of `year` before `month`. */
  function DaysBeforeMonth(year: int, month: int): int
    requires 1 <= month <= 12
  {
    [0, 31, 59, 90, 120, 151, 181, 212, 243, 273, 304, 334][month - 1]
    + (if month > 2 && IsLeap(year) then 1 else 0)
  }

  /** Days in the years before `year`, counting from year 1. */
  function DaysBeforeYear(year: int): int
    requires year >= MinYear
  {
    var y := year - 1;
    y * 365 + y / 4 - y / 100 + y / 400
  }

  /** What `datetime(...)` accepts for its date part. */
  predicate ValidDate(year: int, month: int, day: int) {
    MinYear <= year <= MaxYear && 1 <= month <= 12 && 1 <= day <= DaysInMonth(year, month)
  }

  /** What `datetime(...)` accepts: any other tuple makes it raise ValueError,
      or OverflowError for a component beyond the C int range. */
  predicate Valid(c: Components) {
    && ValidDate(c.year, c.month, c.day)
    && 0 <= c.hour < 24
    && 0 <= c.minute < 60
    && 0 <= c.second < 60
    && 0 <= c.microsecond < MicrosPerSecond
  }

  /** The day number of a date, as `date.toordinal()` gives it. */
  function Ordinal(year: int, month: int, day: int): (n: int)
    requires ValidDate(year, month, day)
    ensures n >= 1
  {
    DaysBeforeYear(year) + DaysBeforeMonth(year, month) + day
  }

  /** Microseconds since midnight. */
  function TimeOfDay(c: Components): (t: int)
    requires Valid(c)
    ensures 0 <= t < MicrosPerDay
  {
    ((c.hour * 60 + c.minute) * 60 + c.second) * MicrosPerSecond + c.microsecond
  }

  /** The instant a valid tuple denotes. */
  function ToMicros(c: Components): (t: int)
    requires Valid(c)
    ensures t / MicrosPerDay == Ordinal(c.year, c.month, c.day)
    ensures t % MicrosPerDay == TimeOfDay(c)
  {
    Ordinal(c.year, c.month, c.day) * MicrosPerDay + TimeOfDay(c)
  }

  /** The day number of the date part of an instant (`datetime.date()`). */
  function DateOf(instant: int): int {
    instant / MicrosPerDay
  }

  /** Strict lexicographic order on tuples: the order of the instants they name. */
  predicate Before(a: Components, b: Components) {
    || a.year < b.year
    || (a.year == b.year && a.month < b.month)
    || (a.year == b.year && a.month == b.month && a.day < b.day)
    || (a.year == b.year && a.month == b.month && a.day == b.day && a.hour < b.hour)
    || (a.year == b.year && a.month == b.month && a.day == b.day && a.hour == b.hour
        && a.minute < b.minute)
    || (a.year == b.year && a.month == b.month && a.day == b.day && a.hour == b.hour
        && a.minute == b.minute && a.second < b.second)
    || (a.year == b.year && a.month == b.month && a.day == b.day && a.hour == b.hour
        && a.minute == b.minute && a.second == b.second && a.microsecond < b.microsecond)
  }

  /** A year holds its months back to back. */
  lemma MonthsFillYear(year: int, month: int)
    requires 1 <= month <= 12
    ensures month < 12 ==> DaysBeforeMonth(year, month + 1) == DaysBeforeMonth(year, month) + DaysInMonth(year, month)
    ensures DaysBeforeMonth(year, month) + DaysInMonth(year, month) <= DaysInYear(year)
  {
  }

  /** Consecutive years are back to back. */
  lemma YearStep(year: int)
    requires year >= MinYear
    ensures DaysBeforeYear(year + 1) == DaysBeforeYear(year) + DaysInYear(year)
  {
    QuotientStep4(year);
    QuotientStep100(year);
    QuotientStep400(year);
    LeapCount(year);
  }

  lemma QuotientStep4(n: int)
    ensures n / 4 == (n - 1) / 4 + (if n % 4 == 0 then 1 else 0)
  {
  }

  lemma QuotientStep100(n: int)
    ensures n / 100 == (n - 1) / 100 + (if n % 100 == 0 then 1 else 0)
  {
  }

  lemma QuotientStep400(n: int)
    ensures n / 400 == (n - 1) / 400 + (if n % 400 == 0 then 1 else 0)
  {
  }

  /** The Gregorian rule as a count: +1 every 4 years, -1 every 100, +1 every 400. */
  lemma LeapCount(n: int)
    ensures (if n % 4 == 0 then 1 else 0) - (if n % 100 == 0 then 1 else 0) + (if n % 400 == 0 then 1 else 0)
            == if IsLeap(n) then 1 else 0
  {
    if n % 400 == 0 {
      assert n == 100 * (4 * (n / 400));
    }
    if n % 100 == 0 {
      assert n == 4 * (25 * (n / 100));
    }
  }

  lemma {:induction false} YearsInOrder(y1: int, y2: int)
    requires MinYear <= y1 < y2
    ensures DaysBeforeYear(y1) + DaysInYear(y1) <= DaysBeforeYear(y2)
    decreases y2 - y1
  {
    YearStep(y1);
    if y1 + 1 < y2 {
      YearsInOrder(y1 + 1, y2);
    }
  }

  lemma {:induction false} MonthsInOrder(year: int, m1: int, m2: int)
    requires 1 <= m1 < m2 <= 12
    ensures DaysBeforeMonth(year, m1) + DaysInMonth(year, m1) <= DaysBeforeMonth(year, m2)
    decreases m2 - m1
  {
    MonthsFillYear(year, m1);
    if m1 + 1 < m2 {
      MonthsInOrder(year, m1 + 1, m2);
    }
  }

  /** Day numbers follow calendar order. */
  lemma OrdinalInOrder(y1: int, m1: int, d1: int, y2: int, m2: int, d2: int)
    requires ValidDate(y1, m1, d1) && ValidDate(y2, m2, d2)
    requires y1 < y2 || (y1 == y2 && m1 < m2) || (y1 == y2 && m1 == m2 && d1 < d2)
    ensures Ordinal(y1, m1, d1) < Ordinal(y2, m2, d2)
  {
    if y1 < y2 {
      MonthsFillYear(y1, m1);
      YearsInOrder(y1, y2);
    } else if m1 < m2 {
      MonthsInOrder(y1, m1, m2);
    }
  }

  /** Later tuples denote later instants. */
  lemma ToMicrosInOrder(a: Components, b: Components)
    requires Valid(a) && Valid(b) && Before(a, b)
    ensures ToMicros(a) < ToMicros(b)
  {
    if (a.year, a.month, a.day) != (b.year, b.month, b.day) {
      OrdinalInOrder(a.year, a.month, a.day, b.year, b.month, b.day);
    }
  }

  /** Distinct valid tuples denote distinct instants, so an instant in the
      queue determines the components it was built from. */
  lemma ToMicrosInjective(a: Components, b: Components)
    requires Valid(a) && Valid(b) && a != b
    ensures ToMicros(a) != ToMicros(b)
  {
    if Before(a, b) {
      ToMicrosInOrder(a, b);
    } else if Before(b, a) {
      ToMicrosInOrder(b, a);
    }
  }

  /** `date()` of a built instant is the date it was built from. */
  lemma DateOfToMicros(c: Components)
    requires Valid(c)
    ensures DateOf(ToMicros(c)) == Ordinal(c.year, c.month, c.day)
    ensures forall d :: Valid(d) && DateOf(ToMicros(d)) == DateOf(ToMicros(c)) ==>
              (d.year, d.month, d.day) == (c.year, c.month, c.day)
  {
    forall d | Valid(d) && DateOf(ToMicros(d)) == DateOf(ToMicros(c))
      ensures (d.year, d.month, d.day) == (c.year, c.month, c.day)
    {
      if (d.year, d.month, d.day) != (c.year, c.month, c.day) {
        if d.year < c.year || (d.year == c.year && d.month < c.month)
           || (d.year == c.year && d.month == c.month && d.day < c.day) {
          OrdinalInOrder(d.year, d.month, d.day, c.year, c.month, c.day);
        } else {
          OrdinalInOrder(c.year, c.month, c.day, d.year, d.month, d.day);
        }
      }
    }
  }
}
