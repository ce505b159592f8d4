/**
 * The part of Python's `datetime.date` that the downloader uses: the fixed
 * start date of the device's day counter (`THStartDate`), adding a whole
 * number of days to it (`THStartDate + timedelta(days=n)`), and `str(date)`.
 *
 * Dates are proleptic Gregorian, as Python's are. `DayNumber` is the distance
 * from 2000-01-01, in the closed form Python itself uses for ordinals; the
 * conversion back (`DaysAfterEpoch`) walks years and then months, and the two are
 * proved inverse to each other.
 */
module Calendar {
  import opened Wrappers
  import opened Text

  datatype Date = Date(year: int, month: int, day: int)

  predicate IsLeapYear(y: int) {
    y % 4 == 0 && (y % 100 != 0 || y % 400 == 0)
  }

  function DaysInYear(y: int): int {
    if IsLeapYear(y) then 366 else 365
  }

  function DaysInMonth(y: int, m: int): int
    requires 1 <= m <= 12
  {
    if m == 2 then (if IsLeapYear(y) then 29 else 28)
    else if m == 4 || m == 6 || m == 9 || m == 11 then 30
    else 31
  }

  /** The dates Python's `date` can hold: years MINYEAR = 1 to MAXYEAR = 9999. */
  predicate IsValid(d: Date) {
    1 <= d.year <= 9999 && 1 <= d.month <= 12 && 1 <= d.day <= DaysInMonth(d.year, d.month)
  }

  type CivilDate = d: Date | IsValid(d) witness Date(2000, 1, 1)

  /** `THStartDate`: day 0 of the device's day counter. */
  const Epoch: CivilDate := Date(2000, 1, 1)

  /** Days in the months of year `y` before month `m`. */
  function DaysBeforeMonth(y: int, m: int): int
    requires 1 <= m <= 13
  {
    if m == 1 then 0 else DaysBeforeMonth(y, m - 1) + DaysInMonth(y, m - 1)
  }

  /** Number of leap years among the years 1 .. y-1. */
  function LeapYearsBefore(y: int): int
    requires y >= 1
  {
    (y - 1) / 4 - (y - 1) / 100 + (y - 1) / 400
  }

  /** Days from 2000-01-01 to January 1st of year `y` (negative before 2000). */
  function DaysBeforeYear(y: int): int
    requires y >= 1
  {
    365 * (y - 2000) + LeapYearsBefore(y) - LeapYearsBefore(2000)
  }

  /** Days from 2000-01-01 to `d`. */
  function DayNumber(d: CivilDate): int {
    DaysBeforeYear(d.year) + DaysBeforeMonth(d.year, d.month) + d.day - 1
  }

  /** The largest day offset Python accepts: 2000-01-01 + MaxDays is 9999-12-31,
      one day more raises OverflowError. */
  const MaxDays: nat := 2921939

  /** Lexicographic order of dates: `a` is strictly earlier than `b`. */
  predicate Before(a: Date, b: Date) {
    a.year < b.year ||
    (a.year == b.year && (a.month < b.month || (a.month == b.month && a.day < b.day)))
  }

  lemma DivisionStep(y: int)
    ensures y / 4 - (y - 1) / 4 == (if y % 4 == 0 then 1 else 0)
    ensures y / 100 - (y - 1) / 100 == (if y % 100 == 0 then 1 else 0)
    ensures y / 400 - (y - 1) / 400 == (if y % 400 == 0 then 1 else 0)
  {
  }

  /** Consecutive New Years are one year length apart. */
  lemma YearLength(y: int)
    requires y >= 1
    ensures DaysBeforeYear(y + 1) == DaysBeforeYear(y) + DaysInYear(y)
  {
    DivisionStep(y);
  }

  /** The twelve months add up to the year. */
  lemma MonthsFillYear(y: int)
    ensures DaysBeforeMonth(y, 13) == DaysInYear(y)
  {
    var feb := DaysInMonth(y, 2);
    assert DaysBeforeMonth(y, 2) == 31;
    assert DaysBeforeMonth(y, 3) == 31 + feb;
    assert DaysBeforeMonth(y, 4) == 62 + feb;
    assert DaysBeforeMonth(y, 5) == 92 + feb;
    assert DaysBeforeMonth(y, 6) == 123 + feb;
    assert DaysBeforeMonth(y, 7) == 153 + feb;
    assert DaysBeforeMonth(y, 8) == 184 + feb;
    assert DaysBeforeMonth(y, 9) == 215 + feb;
    assert DaysBeforeMonth(y, 10) == 245 + feb;
    assert DaysBeforeMonth(y, 11) == 276 + feb;
    assert DaysBeforeMonth(y, 12) == 306 + feb;
    assert DaysBeforeMonth(y, 13) == 337 + feb;
  }

  lemma {:induction false} MonthsOrdered(y: int, m: int, m': int)
    requires 1 <= m <= m' <= 13
    ensures DaysBeforeMonth(y, m) <= DaysBeforeMonth(y, m')
    decreases m' - m
  {
    if m < m' {
      MonthsOrdered(y, m, m' - 1);
    }
  }

  lemma {:induction false} YearsOrdered(y: int, y': int)
    requires 1 <= y <= y'
    ensures DaysBeforeYear(y) <= DaysBeforeYear(y')
    decreases y' - y
  {
    if y < y' {
      YearLength(y' - 1);
      YearsOrdered(y, y' - 1);
    }
  }

  /** A date lies inside its own year: before the next New Year. */
  lemma WithinYear(d: CivilDate)
    ensures DaysBeforeYear(d.year) <= DayNumber(d)
    ensures DayNumber(d) < DaysBeforeYear(d.year + 1)
  {
    MonthsOrdered(d.year, 1, d.month);
    MonthsOrdered(d.year, d.month + 1, 13);
    MonthsFillYear(d.year);
    YearLength(d.year);
  }

  /** Later dates have larger day numbers. */
  lemma DayNumberMonotone(a: CivilDate, b: CivilDate)
    requires Before(a, b)
    ensures DayNumber(a) < DayNumber(b)
  {
    if a.year < b.year {
      WithinYear(a);
      WithinYear(b);
      YearsOrdered(a.year + 1, b.year);
    } else if a.month < b.month {
      MonthsOrdered(a.year, a.month + 1, b.month);
    }
  }

  /** Different dates have different day numbers. */
  lemma DayNumberInjective(a: CivilDate, b: CivilDate)
    requires DayNumber(a) == DayNumber(b)
    ensures a == b
  {
    if Before(a, b) {
      DayNumberMonotone(a, b);
    } else if Before(b, a) {
      DayNumberMonotone(b, a);
    }
  }

  /** The day of year `y` that lies `rem` days after the first of month `m`. */
  function MonthWalk(y: int, m: int, rem: nat): (d: CivilDate)
    requires 1 <= y <= 9999 && 1 <= m <= 12
    requires DaysBeforeMonth(y, m) + rem < DaysInYear(y)
    ensures d.year == y && m <= d.month
    ensures DaysBeforeMonth(y, d.month) + d.day - 1 == DaysBeforeMonth(y, m) + rem
    decreases 12 - m
  {
    MonthsFillYear(y);
    if rem < DaysInMonth(y, m) then Date(y, m, rem + 1)
    else MonthWalk(y, m + 1, rem - DaysInMonth(y, m))
  }

  /** The date `rem` days after January 1st of year `y`. */
  function YearWalk(y: int, rem: nat): (d: CivilDate)
    requires 2000 <= y <= 9999
    requires DaysBeforeYear(y) + rem <= MaxDays
    ensures y <= d.year
    ensures DayNumber(d) == DaysBeforeYear(y) + rem
    decreases rem
  {
    YearLength(y);
    if rem < DaysInYear(y) then MonthWalk(y, 1, rem)
    else YearWalk(y + 1, rem - DaysInYear(y))
  }

  /** `THStartDate + timedelta(days=n)`: the date `n` days after 2000-01-01,
      or None where Python raises OverflowError (past 9999-12-31). */
  function DaysAfterEpoch(n: nat): (r: Option<CivilDate>)
    ensures r.Some? <==> n <= MaxDays
    ensures r.Some? ==> DayNumber(r.value) == n
  {
    if n <= MaxDays then Some(YearWalk(2000, n)) else None
  }

  /** Day 0 is the start date itself. */
  lemma DayZeroIsEpoch()
    ensures DaysAfterEpoch(0) == Some(Epoch)
  {
    DayNumberInjective(DaysAfterEpoch(0).value, Epoch);
  }

  /** More days give a strictly later date. */
  lemma MoreDaysLater(n: nat, n': nat)
    requires n < n' <= MaxDays
    ensures Before(DaysAfterEpoch(n).value, DaysAfterEpoch(n').value)
  {
    var a, b := DaysAfterEpoch(n).value, DaysAfterEpoch(n').value;
    if !Before(a, b) {
      if a == b {
      } else {
        assert Before(b, a);
        DayNumberMonotone(b, a);
      }
    }
  }

  /** Every date from the start date to 9999-12-31 is reached, at its own day number. */
  lemma EveryDateReached(d: CivilDate)
    requires d.year >= 2000
    ensures 0 <= DayNumber(d) <= MaxDays
    ensures DaysAfterEpoch(DayNumber(d)) == Some(d)
  {
    WithinYear(d);
    YearsOrdered(2000, d.year);
    assert DayNumber(Date(9999, 12, 31)) == MaxDays;
    if d != Date(9999, 12, 31) {
      DayNumberMonotone(d, Date(9999, 12, 31));
    }
    DayNumberInjective(DaysAfterEpoch(DayNumber(d)).value, d);
  }

  /** The day count of the sample download line, 7749, is 2021-03-20. */
  lemma SampleDayCount()
    ensures DaysAfterEpoch(7749) == Some(Date(2021, 3, 20))
  {
    var d: CivilDate := Date(2021, 3, 20);
    assert DaysBeforeMonth(2021, 3) == 59;
    assert DayNumber(d) == 7749;
    EveryDateReached(d);
  }

  /** `str(date)`: ISO 8601 `YYYY-MM-DD`. */
  function IsoFormat(d: CivilDate): (s: string)
    ensures |s| == 10 && s[4] == '-' && s[7] == '-'
    ensures AllIn(Digit, s[..4]) && AllIn(Digit, s[5..7]) && AllIn(Digit, s[8..])
    ensures DecimalValue(s[..4]) == d.year
    ensures DecimalValue(s[5..7]) == d.month
    ensures DecimalValue(s[8..]) == d.day
  {
    assert Pow10(4) == 10000 && Pow10(2) == 100;
    var s := Padded(d.year, 4) + "-" + Padded(d.month, 2) + "-" + Padded(d.day, 2);
    assert s[..4] == Padded(d.year, 4);
    assert s[5..7] == Padded(d.month, 2);
    assert s[8..] == Padded(d.day, 2);
    s
  }
}
