/** The Gregorian calendar, and anniversaries in it. */
module Calendar {

  datatype Date = Date(year: nat, month: nat, day: nat)

  predicate Leap(year: nat)
  {
    year % 4 == 0 && (year % 100 != 0 || year % 400 == 0)
  }

  function YearLength(year: nat): nat { if Leap(year) then 366 else 365 }

  function MonthLength(year: nat, month: nat): nat
  {
    if month == 2 then if Leap(year) then 29 else 28
    else if month == 4 || month == 6 || month == 9 || month == 11 then 30
    else 31
  }

  predicate Valid(d: Date)
  {
    1 <= d.month <= 12 && 1 <= d.day <= MonthLength(d.year, d.month)
  }

  /** Days from 1 January of the year 0 to 1 January of the year. */
  function BeforeYear(year: nat): nat
  {
    if year == 0 then 0 else BeforeYear(year - 1) + YearLength(year - 1)
  }

  /** Days from 1 January to the first of the month. */
  function BeforeMonth(year: nat, month: nat): nat
  {
    if month <= 1 then 0 else BeforeMonth(year, month - 1) + MonthLength(year, month - 1)
  }

  /** Date.UTC: a day past the end of its month runs on into the next. */
  function Utc(year: nat, month: nat, day: nat): int
  {
    BeforeYear(year) + BeforeMonth(year, month) + day - 1
  }

  function DayNumber(d: Date): int { Utc(d.year, d.month, d.day) }

  lemma {:induction false} MonthsWithinYear(year: nat, month: nat)
    requires 1 <= month <= 12
    ensures BeforeMonth(year, month) + MonthLength(year, month) <= YearLength(year)
    ensures BeforeMonth(year, 1) == 0 && BeforeMonth(year, 2) == 31
    ensures 3 <= month ==> BeforeMonth(year, month) - MonthLength(year, 2) == BeforeMonth(1, month) - 28
  {
    assert BeforeMonth(year, 3) == 31 + MonthLength(year, 2) && BeforeMonth(1, 3) == 59;
    assert BeforeMonth(year, 4) == BeforeMonth(year, 3) + 31 && BeforeMonth(1, 4) == 90;
    assert BeforeMonth(year, 5) == BeforeMonth(year, 4) + 30 && BeforeMonth(1, 5) == 120;
    assert BeforeMonth(year, 6) == BeforeMonth(year, 5) + 31 && BeforeMonth(1, 6) == 151;
    assert BeforeMonth(year, 7) == BeforeMonth(year, 6) + 30 && BeforeMonth(1, 7) == 181;
    assert BeforeMonth(year, 8) == BeforeMonth(year, 7) + 31 && BeforeMonth(1, 8) == 212;
    assert BeforeMonth(year, 9) == BeforeMonth(year, 8) + 31 && BeforeMonth(1, 9) == 243;
    assert BeforeMonth(year, 10) == BeforeMonth(year, 9) + 30 && BeforeMonth(1, 10) == 273;
    assert BeforeMonth(year, 11) == BeforeMonth(year, 10) + 31 && BeforeMonth(1, 11) == 304;
    assert BeforeMonth(year, 12) == BeforeMonth(year, 11) + 30 && BeforeMonth(1, 12) == 334;
  }

  /** A date lies in its year. */
  lemma {:induction false} InItsYear(d: Date)
    requires Valid(d)
    ensures BeforeYear(d.year) <= DayNumber(d) < BeforeYear(d.year + 1)
  {
    MonthsWithinYear(d.year, d.month);
  }

  lemma {:induction false} YearsRise(a: nat, b: nat)
    requires a <= b
    ensures BeforeYear(a) + (b - a) <= BeforeYear(b)
  {
    if a < b {
      YearsRise(a, b - 1);
    }
  }

  /** The n-th return of a date, negative n before it; 29 February falls on 1 March of a common year. */
  function Anniversary(d: Date, n: int): int
    requires 0 <= d.year + n
  {
    Utc(d.year + n, d.month, d.day)
  }

  function DayOfYear(year: nat, month: nat, day: nat): int { BeforeMonth(year, month) + day - 1 }

  /** From March on a date comes a day later in a leap year; so does 29 February, as 1 March, in a common one. */
  lemma {:induction false} DayOfYearShifts(d: Date, year: nat)
    requires Valid(d)
    ensures 0 <= DayOfYear(year, d.month, d.day) < YearLength(year)
    ensures DayOfYear(year, d.month, d.day) == DayOfYear(1, d.month, d.day) + if 3 <= d.month && Leap(year) then 1 else 0
  {
    MonthsWithinYear(d.year, d.month);
    MonthsWithinYear(year, d.month);
    MonthsWithinYear(1, d.month);
  }

  /** It lies in its year, and a year passes from one to the next. */
  lemma {:induction false} AnniversaryInYear(d: Date, n: int)
    requires Valid(d) && 0 <= d.year + n
    ensures BeforeYear(d.year + n) <= Anniversary(d, n) < BeforeYear(d.year + n + 1)
    ensures 365 <= Anniversary(d, n + 1) - Anniversary(d, n) <= 366
  {
    DayOfYearShifts(d, d.year + n);
    DayOfYearShifts(d, d.year + n + 1);
    NoTwoLeapYears(d.year + n);
  }

  lemma {:induction false} NoTwoLeapYears(year: nat)
    ensures !(Leap(year) && Leap(year + 1))
  {
  }

  lemma {:induction false} AnniversariesRise(d: Date, m: int, n: int)
    requires Valid(d) && 0 <= d.year + m && m <= n
    ensures Anniversary(d, m) + 365 * (n - m) <= Anniversary(d, n)
    decreases n - m
  {
    if m < n {
      AnniversariesRise(d, m, n - 1);
      AnniversaryInYear(d, n - 1);
    }
  }

  /** 29 February returns as 1 March in a common year, and as itself in a leap year. */
  lemma {:induction false} LeapDayReturns(d: Date, n: int)
    requires Valid(d) && d.month == 2 && d.day == 29 && 0 <= d.year + n
    ensures Anniversary(d, n) == DayNumber(if Leap(d.year + n) then Date(d.year + n, 2, 29) else Date(d.year + n, 3, 1))
  {
    MonthsWithinYear(d.year + n, 3);
    assert BeforeMonth(d.year + n, 3) == 31 + MonthLength(d.year + n, 2);
  }
}
