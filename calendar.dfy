/** java.time.LocalDate as the tracker uses it: a (year, month, day) record
    ordered the way `LocalDate.compareTo` orders it, the month accessor
    (`getMonth`), `withDayOfMonth(1)` and `plusDays`. The ambient clock
    (`LocalDate.now()` and the locale's first day of the week) is a value
    handed in by the caller. */
module Calendar {

  /** java.time.Month, JANUARY = 1 .. DECEMBER = 12. */
  type Month = m: int | 1 <= m <= 12 witness 1

  datatype Date = Date(year: int, month: Month, day: int)

  /** The proleptic ISO leap-year rule of `IsoChronology.isLeapYear`. */
  predicate IsLeap(y: int) {
    y % 4 == 0 && (y % 100 != 0 || y % 400 == 0)
  }

  function DaysInMonth(y: int, m: Month): (n: int)
    ensures 28 <= n <= 31
    ensures m == 2 ==> (n == 29 <==> IsLeap(y))
  {
    if m == 2 then (if IsLeap(y) then 29 else 28)
    else if m == 4 || m == 6 || m == 9 || m == 11 then 30
    else 31
  }

  /** A date a LocalDate can hold. */
  predicate Valid(d: Date) {
    1 <= d.day <= DaysInMonth(d.year, d.month)
  }

  /** `a.isBefore(b)`: year first, then month, then day. */
  predicate Before(a: Date, b: Date) {
    a.year < b.year
    || (a.year == b.year && (a.month < b.month || (a.month == b.month && a.day < b.day)))
  }

  /** `a.isAfter(b)`. */
  predicate After(a: Date, b: Date) {
    Before(b, a)
  }

  /** Dates are totally and strictly ordered by `Before`, as LocalDate is by
      compareTo. */
  lemma BeforeIsStrictTotalOrder(a: Date, b: Date, c: Date)
    ensures !Before(a, a)
    ensures Before(a, b) ==> !Before(b, a)
    ensures Before(a, b) && Before(b, c) ==> Before(a, c)
    ensures Before(a, b) || a == b || Before(b, a)
  {
  }

  /** The day after `d`: the next day of the month, else the first of the
      next month, else the first of January of the next year. */
  function NextDay(d: Date): (r: Date)
    ensures Before(d, r)
    ensures Valid(d) ==> Valid(r)
    ensures Valid(d) ==> forall x :: Valid(x) && Before(d, x) ==> x == r || Before(r, x)
  {
    if d.day < DaysInMonth(d.year, d.month) then Date(d.year, d.month, d.day + 1)
    else if d.month < 12 then Date(d.year, d.month + 1, 1)
    else Date(d.year + 1, 1, 1)
  }

  /** `d.plusDays(n)` for a non-negative `n`. */
  function PlusDays(d: Date, n: nat): (r: Date)
    ensures Valid(d) ==> Valid(r)
    decreases n
  {
    if n == 0 then d else PlusDays(NextDay(d), n - 1)
  }

  /** Adding days never goes back, and adding at least one day goes forward. */
  lemma {:induction false} PlusDaysMonotone(d: Date, n: nat)
    ensures n == 0 ==> PlusDays(d, n) == d
    ensures n > 0 ==> Before(d, PlusDays(d, n))
    decreases n
  {
    if n > 1 {
      PlusDaysMonotone(NextDay(d), n - 1);
      BeforeIsStrictTotalOrder(d, NextDay(d), PlusDays(d, n));
    }
  }

  /** Adding `a` days and then `b` days is adding `a + b` days. */
  lemma {:induction false} PlusDaysAdd(d: Date, a: nat, b: nat)
    ensures PlusDays(PlusDays(d, a), b) == PlusDays(d, a + b)
    decreases a
  {
    if a > 0 {
      PlusDaysAdd(NextDay(d), a - 1, b);
    }
  }

  /** Any date `k` days after `start`, with `k <= n`, lies in the inclusive
      range from `start` to `start.plusDays(n)`. */
  lemma PlusDaysWithin(start: Date, k: nat, n: nat)
    requires k <= n
    ensures !Before(PlusDays(start, k), start)
    ensures !After(PlusDays(start, k), PlusDays(start, n))
  {
    PlusDaysMonotone(start, k);
    PlusDaysAdd(start, k, n - k);
    PlusDaysMonotone(PlusDays(start, k), n - k);
  }

  /** `d.withDayOfMonth(1)`. */
  function FirstOfMonth(d: Date): (r: Date)
    ensures r.year == d.year && r.month == d.month && Valid(r)
    ensures d.day >= 1 ==> !After(r, d)
    ensures forall x :: !Before(x, r) <==> (x.year > d.year || (x.year == d.year && (x.month > d.month || (x.month == d.month && x.day >= 1))))
  {
    Date(d.year, d.month, 1)
  }

  /** What `LocalDate.now()` and `WeekFields.of(Locale.getDefault())` supply:
      today's date and the first day of the current week. */
  datatype Clock = Clock(today: Date, weekStart: Date)

  /** A clock whose week start lies at most six days before today, as the
      first day of the week of any locale does. */
  predicate Consistent(c: Clock) {
    exists k: nat :: k <= 6 && c.today == PlusDays(c.weekStart, k)
  }
}
