/**
 * Calendar dates as day numbers. The pipeline does date arithmetic with
 * `date + timedelta(days=x)`, so a date is modelled by its day number:
 * day 0 is 0001-01-01 in the proleptic Gregorian calendar (one less than
 * Python's `date.toordinal()`). `FromDay` recovers the year, month and day
 * that `strftime` prints; the two directions are proved inverse.
 */
module Calendar {

  /** A calendar date, counted in days from 0001-01-01. */
  type Day = nat

  /** A date as year, month (1..12) and day of month. */
  datatype Civil = Civil(year: nat, month: nat, day: nat)

  predicate IsLeap(y: nat) {
    y % 4 == 0 && (y % 100 != 0 || y % 400 == 0)
  }

  function DaysInYear(y: nat): nat {
    if IsLeap(y) then 366 else 365
  }

  function DaysInMonth(y: nat, m: nat): nat {
    if m == 2 then (if IsLeap(y) then 29 else 28)
    else if m == 4 || m == 6 || m == 9 || m == 11 then 30
    else 31
  }

  /** Days of year `y` that come before the first of month `m` (m == 13: the whole year). */
  function DaysBeforeMonth(y: nat, m: nat): nat
    requires 1 <= m <= 13
  {
    if m == 1 then 0 else DaysBeforeMonth(y, m - 1) + DaysInMonth(y, m - 1)
  }

  /** Days from 0001-01-01 to the first of January of year `y`. */
  function DaysBeforeYear(y: nat): nat
    requires y >= 1
  {
    if y == 1 then 0 else DaysBeforeYear(y - 1) + DaysInYear(y - 1)
  }

  /** The twelve months make up the year. */
  lemma TwelveMonths(y: nat)
    ensures DaysBeforeMonth(y, 13) == DaysInYear(y)
  {
    var feb := DaysInMonth(y, 2);
    assert DaysBeforeMonth(y, 2) == 31;
    assert DaysBeforeMonth(y, 3) == 31 + feb;
    assert DaysBeforeMonth(y, 4) == 62 + feb;
    assert DaysBeforeMonth(y, 5) == 92 + feb;
    assert DaysBeforeMonth(y, 6) == 123 + feb;
    assert DaysBeforeMonth(y, 7) == 153 + feb;
    assert DaysBeforeMonth(y, 8) == 184 + feb;
    assert DaysBeforeMonth(y, 9) == 215 + feb;
    assert DaysBeforeMonth(y, 10) == 245 + feb;
    assert DaysBeforeMonth(y, 11) == 276 + feb;
    assert DaysBeforeMonth(y, 12) == 306 + feb;
  }

  /** Months further into the year start later. */
  lemma {:induction false} MonthsAscend(y: nat, m: nat, m': nat)
    requires 1 <= m <= m' <= 13
    ensures DaysBeforeMonth(y, m) + (if m < m' then DaysInMonth(y, m) else 0) <= DaysBeforeMonth(y, m')
    decreases m' - m
  {
    if m < m' - 1 {
      MonthsAscend(y, m, m' - 1);
    }
  }

  /** Later years start later: a whole year separates consecutive January firsts. */
  lemma {:induction false} YearsAscend(y: nat, y': nat)
    requires 1 <= y < y'
    ensures DaysBeforeYear(y) + DaysInYear(y) <= DaysBeforeYear(y')
    decreases y' - y
  {
    if y + 1 < y' {
      YearsAscend(y, y' - 1);
    }
  }

  /** A real calendar date. */
  predicate Valid(c: Civil) {
    1 <= c.year && 1 <= c.month <= 12 && 1 <= c.day <= DaysInMonth(c.year, c.month)
  }

  /** The day number of a calendar date. */
  function ToDay(c: Civil): Day
    requires Valid(c)
  {
    DaysBeforeYear(c.year) + DaysBeforeMonth(c.year, c.month) + c.day - 1
  }

  /** A valid date's offset within its year is less than the year's length. */
  lemma WithinYear(c: Civil)
    requires Valid(c)
    ensures DaysBeforeMonth(c.year, c.month) + c.day - 1 < DaysInYear(c.year)
  {
    MonthsAscend(c.year, c.month, 13);
    TwelveMonths(c.year);
  }

  /** The date `k` days after the first of month `m` of year `y`, within that year. */
  function MonthFrom(y: nat, m: nat, k: nat): (c: Civil)
    requires y >= 1 && 1 <= m <= 12
    requires DaysBeforeMonth(y, m) + k < DaysInYear(y)
    ensures Valid(c) && c.year == y && c.month >= m
    ensures DaysBeforeMonth(y, c.month) + c.day - 1 == DaysBeforeMonth(y, m) + k
    decreases 12 - m
  {
    if k < DaysInMonth(y, m) then Civil(y, m, k + 1)
    else
      TwelveMonths(y);
      MonthFrom(y, m + 1, k - DaysInMonth(y, m))
  }

  /** The date `k` days after the first of January of year `y`. */
  function YearFrom(y: nat, k: nat): (c: Civil)
    requires y >= 1
    ensures Valid(c) && c.year >= y
    ensures ToDay(c) == DaysBeforeYear(y) + k
    decreases k
  {
    if k < DaysInYear(y) then MonthFrom(y, 1, k)
    else YearFrom(y + 1, k - DaysInYear(y))
  }

  /** The calendar date of a day number, as `strftime` sees it. */
  function FromDay(d: Day): (c: Civil)
    ensures Valid(c) && ToDay(c) == d
  {
    YearFrom(1, d)
  }

  /** Distinct valid dates have distinct day numbers. */
  lemma ToDayInjective(c: Civil, c': Civil)
    requires Valid(c) && Valid(c')
    requires ToDay(c) == ToDay(c')
    ensures c == c'
  {
    WithinYear(c);
    WithinYear(c');
    if c.year < c'.year {
      YearsAscend(c.year, c'.year);
    } else if c'.year < c.year {
      YearsAscend(c'.year, c.year);
    } else if c.month < c'.month {
      MonthsAscend(c.year, c.month, c'.month);
    } else if c'.month < c.month {
      MonthsAscend(c.year, c'.month, c.month);
    }
  }

  /** The other round trip: a valid date survives conversion to a day number and back. */
  lemma CivilRoundTrip(c: Civil)
    requires Valid(c)
    ensures FromDay(ToDay(c)) == c
  {
    ToDayInjective(FromDay(ToDay(c)), c);
  }

  /** How many of the years 1..n are leap years. */
  function LeapsUpTo(n: nat): nat {
    n / 4 - n / 100 + n / 400
  }

  /** Quotient and remainder are the only ones with `n == k * q + r` and `0 <= r < k`. */
  lemma DivUnique(n: int, k: int, q: int, r: int)
    requires k > 0 && 0 <= r < k && n == k * q + r
    ensures n / k == q && n % k == r
  {
    var q', r' := n / k, n % k;
    assert k * (q - q') == r' - r;
    if q > q' {
      MulAtLeast(k, q - q');
    } else if q < q' {
      MulAtLeast(k, q' - q);
    }
  }

  /** A positive multiple of k is at least k. */
  lemma {:induction false} MulAtLeast(k: int, m: int)
    requires k > 0 && m >= 1
    ensures k * m >= k
    decreases m
  {
    if m > 1 {
      MulAtLeast(k, m - 1);
      assert k * m == k * (m - 1) + k;
    }
  }

  /** Counting multiples of `k`: stepping from n - 1 to n meets one exactly when k divides n. */
  lemma DivStep(n: nat, k: nat)
    requires n >= 1 && k >= 1
    ensures n / k - (n - 1) / k == (if n % k == 0 then 1 else 0)
  {
    var q, r := (n - 1) / k, (n - 1) % k;
    if r == k - 1 {
      DivUnique(n, k, q + 1, 0);
    } else {
      DivUnique(n, k, q, r + 1);
    }
  }

  /** Year n adds one to the count of leap years exactly when it is a leap year. */
  lemma LeapsStep(n: nat)
    requires n >= 1
    ensures LeapsUpTo(n) == LeapsUpTo(n - 1) + (if IsLeap(n) then 1 else 0)
  {
    DivStep(n, 4);
    DivStep(n, 100);
    DivStep(n, 400);
    if n % 400 == 0 {
      DivUnique(n, 100, 4 * (n / 400), 0);
    }
    if n % 100 == 0 {
      DivUnique(n, 4, 25 * (n / 100), 0);
    }
  }

  /** A year's first day in closed form: 365 days a year plus one per leap year before it. */
  lemma {:induction false} DaysBeforeYearClosed(y: nat)
    requires y >= 1
    ensures DaysBeforeYear(y) == 365 * (y - 1) + LeapsUpTo(y - 1)
    decreases y
  {
    if y > 1 {
      DaysBeforeYearClosed(y - 1);
      LeapsStep(y - 1);
    }
  }

  /** Day number of 10000-01-01, the first day Python's `date` type cannot hold. */
  const EndOfRange: Day := 3652059

  /** Python's `date` type stops at 9999-12-31: the representable days are those before 10000-01-01. */
  predicate InRange(d: Day) {
    d < EndOfRange
  }

  /** 10000-01-01 is day `EndOfRange`. */
  lemma EndOfRangeIsYear10000()
    ensures DaysBeforeYear(10000) == EndOfRange
  {
    DaysBeforeYearClosed(10000);
  }

  /** A day is representable exactly when its year has at most four digits, so `%Y` prints four digits. */
  lemma InRangeYear(d: Day)
    ensures InRange(d) <==> FromDay(d).year <= 9999
  {
    var c := FromDay(d);
    EndOfRangeIsYear10000();
    WithinYear(c);
    if c.year < 10000 {
      YearsAscend(c.year, 10000);
    } else if c.year > 10000 {
      YearsAscend(10000, c.year);
    }
  }
}
