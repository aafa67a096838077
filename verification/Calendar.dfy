// The proleptic Gregorian calendar as far as period seeding needs it.  A date is
// its ordinal (1 January of year 1 is day 1), a month is 12 * year + month - 1.
module Calendar {

  const FIRST_YEAR := 2000
  const LAST_YEAR := 2100

  predicate IsLeap(y: int) {
    y % 4 == 0 && (y % 100 != 0 || y % 400 == 0)
  }

  /** The second component of calendar.monthrange. */
  function DaysInMonth(y: int, m: int): (n: int)
    requires 1 <= m <= 12
    ensures 28 <= n <= 31
  {
    if m == 2 then (if IsLeap(y) then 29 else 28)
    else if m == 4 || m == 6 || m == 9 || m == 11 then 30
    else 31
  }

  /** Days of the year that come before month m; DaysBeforeMonth(y, 13) is the length of the year. */
  function DaysBeforeMonth(y: int, m: int): int
    requires 1 <= m <= 13
    decreases m
  {
    if m == 1 then 0 else DaysBeforeMonth(y, m - 1) + DaysInMonth(y, m - 1)
  }

  /** date(y, m, d).toordinal(), by the closed formula for leap days. */
  function Ordinal(y: int, m: int, d: int): int
    requires 1 <= m <= 12
  {
    365 * (y - 1) + (y - 1) / 4 - (y - 1) / 100 + (y - 1) / 400 + DaysBeforeMonth(y, m) + d
  }

  function MonthIndex(y: int, m: int): int {
    12 * y + m - 1
  }

  /** The first day of the k-th month. */
  function MonthStart(k: int): int {
    Ordinal(k / 12, k % 12 + 1, 1)
  }

  lemma YearLength(y: int)
    ensures DaysBeforeMonth(y, 13) == if IsLeap(y) then 366 else 365
  {
    assert DaysBeforeMonth(y, 13) == DaysBeforeMonth(y, 9) + 122;
    assert DaysBeforeMonth(y, 9) == DaysBeforeMonth(y, 5) + 123;
    assert DaysBeforeMonth(y, 5) == 92 + DaysInMonth(y, 2);
  }

  lemma LeapDay(y: int)
    ensures y / 4 - (y - 1) / 4 == if y % 4 == 0 then 1 else 0
    ensures y / 100 - (y - 1) / 100 == if y % 100 == 0 then 1 else 0
    ensures y / 400 - (y - 1) / 400 == if y % 400 == 0 then 1 else 0
    ensures y % 400 == 0 ==> y % 100 == 0
    ensures y % 100 == 0 ==> y % 4 == 0
  {
  }

  /** The day after the last day of a month is the first day of the next one,
      across year ends and leap days alike. */
  lemma MonthsAbut(y: int, m: int)
    requires 1 <= m <= 12
    ensures MonthStart(MonthIndex(y, m)) == Ordinal(y, m, 1)
    ensures MonthStart(MonthIndex(y, m) + 1) == Ordinal(y, m, DaysInMonth(y, m)) + 1
  {
    var k := MonthIndex(y, m);
    assert k / 12 == y && k % 12 == m - 1;
    if m < 12 {
      assert (k + 1) / 12 == y && (k + 1) % 12 == m;
      assert DaysBeforeMonth(y, m + 1) == DaysBeforeMonth(y, m) + DaysInMonth(y, m);
    } else {
      assert (k + 1) / 12 == y + 1 && (k + 1) % 12 == 0;
      YearLength(y);
      LeapDay(y);
      assert DaysBeforeMonth(y, 13) == DaysBeforeMonth(y, 12) + DaysInMonth(y, 12);
    }
  }

  lemma MonthLength(k: int)
    ensures MonthStart(k) + 28 <= MonthStart(k + 1)
  {
    hide DaysBeforeMonth;
    assert MonthIndex(k / 12, k % 12 + 1) == k;
    MonthsAbut(k / 12, k % 12 + 1);
  }

  lemma {:induction false} MonthStartMonotone(i: int, j: int)
    requires i <= j
    ensures MonthStart(i) + 28 * (j - i) <= MonthStart(j)
    decreases j - i
  {
    hide MonthStart, Ordinal, DaysBeforeMonth;
    if i < j {
      MonthStartMonotone(i, j - 1);
      MonthLength(j - 1);
    }
  }

  /** A date lies in exactly one month: months i and j that both hold d are equal. */
  lemma MonthUnique(i: int, j: int, d: int)
    requires MonthStart(i) <= d < MonthStart(i + 1)
    requires MonthStart(j) <= d < MonthStart(j + 1)
    ensures i == j
  {
    if i < j {
      MonthStartMonotone(i + 1, j);
    } else if j < i {
      MonthStartMonotone(j + 1, i);
    }
  }

  /** Some month of the range [lo, hi) holds every date between its ends. */
  lemma {:induction false} MonthExists(lo: int, hi: int, d: int) returns (k: int)
    requires lo < hi
    requires MonthStart(lo) <= d < MonthStart(hi)
    ensures lo <= k < hi && MonthStart(k) <= d < MonthStart(k + 1)
    decreases hi - lo
  {
    hide MonthStart;
    if d < MonthStart(lo + 1) {
      k := lo;
    } else {
      k := MonthExists(lo + 1, hi, d);
    }
  }

  /** Two months given by year and number that hold a common date are the same. */
  lemma MonthOfDate(y: int, m: int, y': int, m': int, d: int)
    requires 1 <= m <= 12 && 1 <= m' <= 12
    requires MonthStart(MonthIndex(y, m)) <= d < MonthStart(MonthIndex(y, m) + 1)
    requires MonthStart(MonthIndex(y', m')) <= d < MonthStart(MonthIndex(y', m') + 1)
    ensures y == y' && m == m'
  {
    MonthUnique(MonthIndex(y, m), MonthIndex(y', m'), d);
  }

  // ----- The table of month ends -----

  /** The day of the year before the first of each month, in a common year; the last is its length. */
  const CUMULATIVE := [0, 31, 59, 90, 120, 151, 181, 212, 243, 273, 304, 334, 365]

  /** Days before the first of month m of year y since the calendar began; month 13 is the next
      year's January. */
  function DayBefore(y: int, m: int): int
    requires 1 <= m <= 13
  {
    365 * (y - 1) + (y - 1) / 4 - (y - 1) / 100 + (y - 1) / 400 + CUMULATIVE[m - 1]
    + if m > 2 && y % 4 == 0 && (y % 100 != 0 || y % 400 == 0) then 1 else 0
  }

  lemma DaysBeforeIs(y: int, m: int)
    requires 1 <= m <= 13
    ensures DaysBeforeMonth(y, m) == CUMULATIVE[m - 1] + if m > 2 && IsLeap(y) then 1 else 0
    decreases m
  {
    if m > 1 {
      DaysBeforeIs(y, m - 1);
    }
  }

  /** Every date's ordinal, by the table of month ends and the leap rule written out. */
  lemma OrdinalIs(y: int, m: int, d: int)
    requires 1 <= m <= 12
    ensures Ordinal(y, m, d) == DayBefore(y, m) + d
  {
    DaysBeforeIs(y, m);
  }

  /** A month runs from its own first day to the day before the next month's first day, and
      December to the day before next January's. */
  lemma MonthIs(y: int, m: int)
    requires 1 <= m <= 12
    ensures Ordinal(y, m, 1) == DayBefore(y, m) + 1
    ensures Ordinal(y, m, DaysInMonth(y, m)) == DayBefore(y, m + 1)
    ensures m == 12 ==> DayBefore(y, m + 1) == DayBefore(y + 1, 1)
  {
    DaysBeforeIs(y, m);
    DaysBeforeIs(y, m + 1);
    LeapDay(y);
  }

  /** 1 January of year 1, 1 January 1970 and 29 February 2000. */
  lemma KnownDays()
    ensures DayBefore(1, 1) + 1 == 1 && DayBefore(1970, 1) + 1 == 719163 && DayBefore(2000, 2) + 29 == 730179
  {
  }
}
