/**
 * Days, months and years of the proleptic Gregorian calendar.
 *
 * A date is its ordinal (day 1 is 1 January of year 1), so intervals and
 * lengths are integer arithmetic.  A month is its index, 12 * year + month - 1.
 * Adding months goes through the month index and clamps the day of the month to
 * the length of the target month, as python-dateutil's relativedelta does.
 */
module Calendar {

  type Day = int
  type Month = int

  datatype Civil = Civil(year: int, month: int, day: int)

  predicate IsLeap(year: int) {
    year % 4 == 0 && (year % 100 != 0 || year % 400 == 0)
  }

  function MonthLength(m: Month): (n: int)
    ensures 28 <= n <= 31
  {
    var month := m % 12 + 1;
    if month == 2 then if IsLeap(m / 12) then 29 else 28
    else if month in {4, 6, 9, 11} then 30
    else 31
  }

  predicate ValidCivil(c: Civil) {
    1 <= c.month <= 12 && 1 <= c.day <= MonthLength(MonthIndex(c))
  }

  function MonthIndex(c: Civil): Month {
    12 * c.year + c.month - 1
  }

  /** The ordinal of the first day of a month: 1 for January of year 1, and then month by month. */
  function MonthStart(m: Month): Day
    decreases if m < 12 then 12 - m else m - 12
  {
    if m == 12 then 1
    else if m < 12 then MonthStart(m + 1) - MonthLength(m)
    else MonthStart(m - 1) + MonthLength(m - 1)
  }

  lemma MonthStartStep(m: Month)
    ensures MonthStart(m + 1) == MonthStart(m) + MonthLength(m)
  {
  }

  function Ordinal(c: Civil): Day {
    MonthStart(MonthIndex(c)) + c.day - 1
  }

  // ---------------------------------------------------------------- the closed form

  function DaysBeforeYear(year: int): int {
    365 * (year - 1) + (year - 1) / 4 - (year - 1) / 100 + (year - 1) / 400
  }

  /** Days from 1 January up to the first day of a month, in a common year. */
  function CommonDaysBefore(month: int): int
    requires 1 <= month <= 12
  {
    [0, 31, 59, 90, 120, 151, 181, 212, 243, 273, 304, 334][month - 1]
  }

  function ClosedMonthStart(m: Month): Day {
    var year, month := m / 12, m % 12 + 1;
    DaysBeforeYear(year) + CommonDaysBefore(month) + (if month > 2 && IsLeap(year) then 1 else 0) + 1
  }

  lemma DivisionStep(year: int)
    ensures year / 4 == (year - 1) / 4 + if year % 4 == 0 then 1 else 0
    ensures year / 100 == (year - 1) / 100 + if year % 100 == 0 then 1 else 0
    ensures year / 400 == (year - 1) / 400 + if year % 400 == 0 then 1 else 0
  {
  }

  lemma CenturyDivisors(year: int)
    ensures year % 400 == 0 ==> year % 100 == 0
    ensures year % 100 == 0 ==> year % 4 == 0
  {
  }

  lemma YearLength(year: int)
    ensures DaysBeforeYear(year + 1) == DaysBeforeYear(year) + if IsLeap(year) then 366 else 365
  {
    DivisionStep(year);
    CenturyDivisors(year);
    assert DaysBeforeYear(year + 1) == 365 * year + year / 4 - year / 100 + year / 400;
  }

  lemma ClosedStep(m: Month)
    ensures ClosedMonthStart(m + 1) == ClosedMonthStart(m) + MonthLength(m)
  {
    hide DaysBeforeYear, IsLeap;
    var year, month := m / 12, m % 12 + 1;
    if month == 12 {
      assert (m + 1) / 12 == year + 1 && (m + 1) % 12 == 0;
      YearLength(year);
    } else {
      assert (m + 1) / 12 == year && (m + 1) % 12 == month;
    }
  }

  /** Counting month by month agrees with the closed form of the Gregorian calendar. */
  lemma {:induction false} MonthStartClosed(m: Month)
    ensures MonthStart(m) == ClosedMonthStart(m)
    decreases if m < 12 then 12 - m else m - 12
  {
    if m == 12 {
      assert ClosedMonthStart(12) == 1;
    } else if m < 12 {
      hide MonthLength, ClosedMonthStart;
      MonthStartClosed(m + 1);
      ClosedStep(m);
    } else {
      hide MonthLength, ClosedMonthStart;
      MonthStartClosed(m - 1);
      ClosedStep(m - 1);
    }
  }

  // ---------------------------------------------------------------- months and days

  lemma {:induction false} MonthStartGap(m: Month, m': Month)
    requires m <= m'
    ensures MonthStart(m') >= MonthStart(m) + 28 * (m' - m)
    decreases m' - m
  {
    hide MonthStart, MonthLength;
    if m < m' {
      MonthStartStep(m);
      MonthStartGap(m + 1, m');
    }
  }

  /** Walks from a guessed month to the month holding the day. */
  function MonthFrom(n: Day, m: Month): (r: Month)
    ensures MonthStart(r) <= n < MonthStart(r + 1)
    decreases if n < MonthStart(m) then MonthStart(m) - n else if n >= MonthStart(m + 1) then n - MonthStart(m + 1) + 1 else 0
  {
    hide MonthStart, MonthLength;
    MonthStartStep(m - 1);
    MonthStartStep(m);
    MonthStartStep(m + 1);
    if n < MonthStart(m) then MonthFrom(n, m - 1)
    else if n >= MonthStart(m + 1) then MonthFrom(n, m + 1)
    else m
  }

  /** The month a day falls in. */
  function MonthOf(n: Day): (m: Month)
    ensures MonthStart(m) <= n < MonthStart(m + 1)
  {
    MonthFrom(n, 12)
  }

  function CivilOf(n: Day): (c: Civil)
    ensures ValidCivil(c)
  {
    hide MonthStart, MonthOf;
    var m := MonthOf(n);
    MonthStartStep(m);
    Civil(m / 12, m % 12 + 1, n - MonthStart(m) + 1)
  }

  lemma MonthOfUnique(n: Day, m: Month)
    requires MonthStart(m) <= n < MonthStart(m + 1)
    ensures MonthOf(n) == m
  {
    hide MonthStart, MonthOf;
    var r := MonthOf(n);
    if r < m {
      MonthStartGap(r + 1, m);
    } else if m < r {
      MonthStartGap(m + 1, r);
    }
  }

  lemma MonthIndexParts(year: int, month: int)
    requires 1 <= month <= 12
    ensures (12 * year + month - 1) / 12 == year && (12 * year + month - 1) % 12 == month - 1
  {
  }

  lemma OrdinalOfCivil(n: Day)
    ensures Ordinal(CivilOf(n)) == n
  {
    hide MonthStart, MonthLength, MonthOf;
    var m := MonthOf(n);
    assert MonthIndex(CivilOf(n)) == 12 * (m / 12) + m % 12;
  }

  lemma CivilOfOrdinal(c: Civil)
    requires ValidCivil(c)
    ensures CivilOf(Ordinal(c)) == c
  {
    hide MonthStart, MonthLength, MonthOf;
    var m := MonthIndex(c);
    MonthStartStep(m);
    MonthOfUnique(Ordinal(c), m);
    MonthIndexParts(c.year, c.month);
  }

  /** Ordinals and valid calendar dates are in bijection. */
  lemma CivilRoundTrip(n: Day, c: Civil)
    ensures Ordinal(CivilOf(n)) == n
    ensures ValidCivil(c) ==> CivilOf(Ordinal(c)) == c
  {
    hide *;
    OrdinalOfCivil(n);
    if ValidCivil(c) { CivilOfOrdinal(c); }
  }

  lemma MonthOfMonotone(n: Day, n': Day)
    requires n <= n'
    ensures MonthOf(n) <= MonthOf(n')
  {
    hide MonthStart, MonthOf;
    if MonthOf(n') < MonthOf(n) {
      MonthStartGap(MonthOf(n') + 1, MonthOf(n));
    }
  }

  // ---------------------------------------------------------------- relative deltas

  function Min(a: int, b: int): (m: int)
    ensures m <= a && m <= b && (m == a || m == b)
  {
    if a <= b then a else b
  }

  function DayOfMonth(n: Day): (d: int)
    ensures 1 <= d <= MonthLength(MonthOf(n))
  {
    hide MonthStart, MonthLength, MonthOf;
    MonthStartStep(MonthOf(n));
    n - MonthStart(MonthOf(n)) + 1
  }

  /** The parts of a calendar date are the month and the day of the month. */
  lemma CivilParts(n: Day)
    ensures MonthIndex(CivilOf(n)) == MonthOf(n)
    ensures CivilOf(n).day == DayOfMonth(n)
  {
    hide MonthStart, MonthLength, MonthOf;
  }

  /** The same day of the month k months later, or that month's last day. */
  function AddMonths(n: Day, k: int): Day {
    var m := MonthOf(n) + k;
    MonthStart(m) + Min(DayOfMonth(n), MonthLength(m)) - 1
  }

  /** The relativedelta values built by the contract lines. */
  datatype Delta =
    | Days(days: int)
    | Months(months: int)
    | MonthsThenFirst(months: int) // relativedelta(months=k, day=1)

  function Plus(n: Day, delta: Delta): Day {
    match delta
    case Days(k) => n + k
    case Months(k) => AddMonths(n, k)
    case MonthsThenFirst(k) => MonthStart(MonthOf(n) + k)
  }

  lemma AddMonthsInMonth(n: Day, k: int)
    ensures MonthOf(AddMonths(n, k)) == MonthOf(n) + k
    ensures DayOfMonth(AddMonths(n, k)) == Min(DayOfMonth(n), MonthLength(MonthOf(n) + k))
  {
    hide MonthStart, MonthLength, MonthOf;
    MonthStartStep(MonthOf(n) + k);
    MonthOfUnique(AddMonths(n, k), MonthOf(n) + k);
  }

  function Count(delta: Delta): int {
    match delta
    case Days(k) => k
    case Months(k) => k
    case MonthsThenFirst(k) => k
  }

  /** A delta moves a day strictly forward exactly when it counts at least one unit. */
  lemma PlusAdvances(n: Day, delta: Delta)
    ensures n < Plus(n, delta) <==> 1 <= Count(delta)
  {
    hide MonthStart, MonthLength, MonthOf;
    if !delta.Days? {
      var k, m := Count(delta), MonthOf(n);
      if 1 <= k {
        MonthStartGap(m + 1, m + k);
      } else if k < 0 {
        MonthStartGap(m + k + 1, m);
        MonthStartStep(m + k);
      }
    }
  }

  /** Adding a delta never reverses the order of two days, clamping included. */
  lemma PlusMonotone(n: Day, n': Day, delta: Delta)
    requires n <= n'
    ensures Plus(n, delta) <= Plus(n', delta)
  {
    hide MonthStart, MonthLength, MonthOf;
    if !delta.Days? {
      MonthOfMonotone(n, n');
      var k := Count(delta);
      if MonthOf(n) < MonthOf(n') {
        MonthStartStep(MonthOf(n) + k);
        MonthStartGap(MonthOf(n) + k + 1, MonthOf(n') + k);
      }
    }
  }

  /**
   * Two shifts never land past the single combined one: clamping in between
   * can only lose days, and loses none when the day of the month is at most 28.
   */
  lemma AddMonthsDrift(n: Day, j: int, k: int)
    ensures AddMonths(AddMonths(n, j), k) <= AddMonths(n, j + k)
    ensures DayOfMonth(n) <= 28 ==> AddMonths(AddMonths(n, j), k) == AddMonths(n, j + k)
  {
    hide MonthStart, MonthLength, MonthOf, DayOfMonth;
    AddMonthsInMonth(n, j);
    assert MonthOf(AddMonths(n, j)) + k == MonthOf(n) + (j + k);
  }
}
