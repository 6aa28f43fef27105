/** The end-of-service award of Articles 85 and 87 of the Saudi Labor Law. */
module EndOfService {
  import opened Calendar

  datatype Reason = Resignation | Termination | Other

  // ---- years of service ----

  /** How many anniversaries after the n-th have been passed. */
  function Completed(hire: Date, day: int, n: nat): nat
    requires Valid(hire)
    decreases day - Anniversary(hire, n)
  {
    AnniversaryInYear(hire, n);
    if day < Anniversary(hire, n + 1) then n else Completed(hire, day, n + 1)
  }

  /** Part of a whole, below one. */
  function Part(days: nat, whole: nat): (r: real)
    requires days < whole
    ensures 0.0 <= r < 1.0 && (days == 0 ==> r == 0.0)
  {
    BelowOne(days as real, whole as real);
    days as real / whole as real
  }

  lemma {:induction false} BelowOne(a: real, b: real)
    requires 0.0 <= a < b
    ensures 0.0 <= a / b < 1.0
  {
    var x := a / b;
    assert x * b == a;
    assert x >= 1.0 ==> x * b >= b;
    assert x < 0.0 ==> x * b < 0.0;
  }

  lemma {:induction false} PartsRise(a: nat, b: nat, whole: nat)
    requires a < b < whole
    ensures Part(a, whole) < Part(b, whole)
  {
    QuotientsRise(a as real, b as real, whole as real);
  }

  lemma {:induction false} QuotientsRise(a: real, b: real, c: real)
    requires a < b && 0.0 < c
    ensures a / c < b / c
  {
    var x, y := a / c, b / c;
    assert x * c == a && y * c == b;
    assert y <= x ==> y * c <= x * c;
  }

  /** Completed years, and the part of the current one worked; nothing before the hire date. */
  function Service(hire: Date, day: int): real
    requires Valid(hire)
  {
    var n := Completed(hire, day, 0);
    CompletedWithin(hire, day, 0);
    AnniversaryInYear(hire, n);
    n as real + Part(Since(hire, day, n), Anniversary(hire, n + 1) - Anniversary(hire, n))
  }

  function Since(hire: Date, day: int, n: nat): nat
    requires Valid(hire)
  {
    if day < Anniversary(hire, n) then 0 else day - Anniversary(hire, n)
  }

  lemma {:induction false} CompletedIs(hire: Date, day: int, from: nat, n: nat)
    requires Valid(hire) && from <= n
    requires (from == n || Anniversary(hire, n) <= day) && day < Anniversary(hire, n + 1)
    ensures Completed(hire, day, from) == n
    decreases n - from
  {
    if from < n {
      AnniversariesRise(hire, from + 1, n);
      CompletedIs(hire, day, from + 1, n);
    }
  }

  lemma {:induction false} CompletedWithin(hire: Date, day: int, from: nat)
    requires Valid(hire)
    ensures var n := Completed(hire, day, from);
      from <= n && day < Anniversary(hire, n + 1) && (from == n || Anniversary(hire, n) <= day)
    decreases day - Anniversary(hire, from)
  {
    AnniversaryInYear(hire, from);
    if Anniversary(hire, from + 1) <= day {
      CompletedWithin(hire, day, from + 1);
    }
  }

  lemma {:induction false} ServiceInYear(hire: Date, day: int)
    requires Valid(hire)
    ensures var n := Completed(hire, day, 0); n as real <= Service(hire, day) < (n + 1) as real
  {
  }

  /** Exactly n years on the n-th anniversary. */
  lemma {:induction false} ServiceOnAnniversary(hire: Date, n: nat)
    requires Valid(hire)
    ensures Service(hire, Anniversary(hire, n)) == n as real
  {
    AnniversaryInYear(hire, n);
    CompletedIs(hire, Anniversary(hire, n), 0, n);
  }

  lemma {:induction false} ServiceIs(hire: Date, day: int, n: nat, whole: nat)
    requires Valid(hire) && n == Completed(hire, day, 0) && whole == Anniversary(hire, n + 1) - Anniversary(hire, n)
    ensures Since(hire, day, n) < whole && Service(hire, day) == n as real + Part(Since(hire, day, n), whole)
  {
    SinceWithin(hire, day);
  }

  lemma {:induction false} SinceIs(hire: Date, day: int, n: nat)
    requires Valid(hire) && n == Completed(hire, day, 0) && Anniversary(hire, 0) <= day
    ensures Since(hire, day, n) == day - Anniversary(hire, n)
  {
    CompletedWithin(hire, day, 0);
  }

  lemma {:induction false} SameYear(hire: Date, early: int, late: int)
    requires Valid(hire) && early < late && Completed(hire, early, 0) == Completed(hire, late, 0)
    ensures Service(hire, early) <= Service(hire, late)
    ensures DayNumber(hire) <= early ==> Service(hire, early) < Service(hire, late)
  {
    var n := Completed(hire, late, 0);
    AnniversaryInYear(hire, n);
    var whole: nat := Anniversary(hire, n + 1) - Anniversary(hire, n);
    ServiceIs(hire, early, n, whole);
    ServiceIs(hire, late, n, whole);
    if DayNumber(hire) <= early {
      AnniversaryInYear(hire, 0);
      SinceIs(hire, early, n);
      SinceIs(hire, late, n);
    }
    if Since(hire, early, n) < Since(hire, late, n) {
      PartsRise(Since(hire, early, n), Since(hire, late, n), whole);
    }
  }

  lemma {:induction false} CompletedRises(hire: Date, early: int, late: int)
    requires Valid(hire) && early <= late
    ensures Completed(hire, early, 0) <= Completed(hire, late, 0)
  {
    var m, n := Completed(hire, early, 0), Completed(hire, late, 0);
    CompletedWithin(hire, early, 0);
    CompletedWithin(hire, late, 0);
    if n < m {
      AnniversariesRise(hire, n + 1, m);
    }
  }

  /** Leaving a day later is strictly more service, leap years and 29 February hires included. */
  lemma {:induction false} ServiceRises(hire: Date, early: int, late: int)
    requires Valid(hire) && early < late
    ensures Service(hire, early) <= Service(hire, late)
    ensures DayNumber(hire) <= early ==> Service(hire, early) < Service(hire, late)
  {
    CompletedRises(hire, early, late);
    if Completed(hire, early, 0) == Completed(hire, late, 0) {
      SameYear(hire, early, late);
    } else {
      ServiceInYear(hire, early);
      ServiceInYear(hire, late);
    }
  }

  /** The calendar arithmetic of yearsOfServiceBetween. */
  method YearsOfServiceBetween(hire: Date, termination: Date) returns (years: nat, daysSince: nat, daysInYear: nat)
    requires Valid(hire) && Valid(termination)
    ensures years == Completed(hire, DayNumber(termination), 0)
    ensures daysSince == Since(hire, DayNumber(termination), years)
    ensures daysSince < daysInYear == Anniversary(hire, years + 1) - Anniversary(hire, years)
    ensures Service(hire, DayNumber(termination)) == years as real + Part(daysSince, daysInYear)
  {
    var day := DayNumber(termination);
    var count := termination.year - hire.year;
    if Anniversary(hire, count) > day {
      count := count - 1;
    }
    years := if 0 < count then count else 0;
    YearFound(hire, termination, years);
    SinceWithin(hire, day);
    daysInYear := Anniversary(hire, years + 1) - Anniversary(hire, years);
    daysSince := if day < Anniversary(hire, years) then 0 else day - Anniversary(hire, years);
  }

  lemma {:induction false} SinceWithin(hire: Date, day: int)
    requires Valid(hire)
    ensures var n := Completed(hire, day, 0); Since(hire, day, n) < Anniversary(hire, n + 1) - Anniversary(hire, n)
  {
    CompletedWithin(hire, day, 0);
    AnniversaryInYear(hire, Completed(hire, day, 0));
  }

  /** The year difference, less one before this year's anniversary, is the number of years completed. */
  lemma {:induction false} YearFound(hire: Date, termination: Date, years: nat)
    requires Valid(hire) && Valid(termination)
    requires var count := termination.year - hire.year;
      var passed := if Anniversary(hire, count) > DayNumber(termination) then count - 1 else count;
      years == if 0 < passed then passed else 0
    ensures years == Completed(hire, DayNumber(termination), 0)
  {
    var count := termination.year - hire.year;
    InItsYear(termination);
    ThisOrLast(hire, count, DayNumber(termination));
    AnniversaryInYear(hire, 0);
    if count <= 0 {
      AnniversariesRise(hire, count + 1, 1);
    }
    CompletedIs(hire, DayNumber(termination), 0, years);
  }

  /** A day in a year lies between last year's anniversary and next year's. */
  lemma {:induction false} ThisOrLast(hire: Date, count: int, day: int)
    requires Valid(hire) && 0 <= hire.year + count && BeforeYear(hire.year + count) <= day < BeforeYear(hire.year + count + 1)
    ensures day < Anniversary(hire, count + 1)
    ensures 0 < hire.year + count ==> Anniversary(hire, count - 1) <= day
  {
    AnniversaryInYear(hire, count + 1);
    if 0 < hire.year + count {
      AnniversaryInYear(hire, count - 1);
    }
  }

  // ---- the award ----

  /** A resignation keeps nothing before two years, a third to five, two thirds before ten; anything else all. */
  function EntitlementFraction(reason: Reason, years: real): (f: real)
    ensures 0.0 <= f <= 1.0
  {
    if reason != Resignation then 1.0
    else if years < 2.0 then 0.0
    else if years <= 5.0 then 1.0 / 3.0
    else if years < 10.0 then 2.0 / 3.0
    else 1.0
  }

  function Min(a: real, b: real): real { if a <= b then a else b }
  function Max(a: real, b: real): real { if a <= b then b else a }

  /** In ten-thousandths: half a month's wage for each of the first five years, a month's for each after. */
  function Gross(wage: nat, years: real): real
  {
    wage as real * 0.5 * Min(years, 5.0) + wage as real * Max(years - 5.0, 0.0)
  }

  function Net(wage: nat, years: real, reason: Reason): real
  {
    Gross(wage, years) * EntitlementFraction(reason, years)
  }

  /** toFixed(4) */
  function Fixed(amount: real): int { (amount + 0.5).Floor }

  datatype Settlement = Settlement(gross: int, net: int)

  function SettlementFor(wage: nat, hire: Date, day: int, reason: Reason): Settlement
    requires Valid(hire)
  {
    var years := Service(hire, day);
    Settlement(Fixed(Gross(wage, years)), Fixed(Net(wage, years, reason)))
  }

  lemma {:induction false} ProductsRise(a: real, b: real, c: real, d: real)
    requires 0.0 <= a <= b && 0.0 <= c <= d
    ensures 0.0 <= a * c <= b * d
  {
    assert a * c <= b * c <= b * d;
  }

  /** The months of wage earned. */
  function Months(years: real): real { 0.5 * Min(years, 5.0) + Max(years - 5.0, 0.0) }

  lemma {:induction false} GrossIsMonths(wage: nat, years: real)
    ensures Gross(wage, years) == wage as real * Months(years)
  {
    Distributes(wage as real, Min(years, 5.0), Max(years - 5.0, 0.0));
  }

  lemma {:induction false} Distributes(w: real, a: real, b: real)
    ensures w * 0.5 * a + w * b == w * (0.5 * a + b)
  {
    assert w * (0.5 * a) == w * 0.5 * a;
  }

  lemma {:induction false} GrossRises(wage: nat, early: real, late: real)
    requires 0.0 <= early <= late
    ensures 0.0 <= Gross(wage, early) <= Gross(wage, late)
  {
    GrossIsMonths(wage, early);
    GrossIsMonths(wage, late);
    ProductsRise(wage as real, wage as real, Months(early), Months(late));
  }

  lemma {:induction false} NetRises(wage: nat, early: real, late: real, reason: Reason)
    requires 0.0 <= early <= late
    ensures 0.0 <= Net(wage, early, reason) <= Net(wage, late, reason) <= Gross(wage, late)
  {
    GrossRises(wage, early, late);
    ProductsRise(Gross(wage, early), Gross(wage, late), EntitlementFraction(reason, early), EntitlementFraction(reason, late));
    ProductsRise(Gross(wage, late), Gross(wage, late), EntitlementFraction(reason, late), 1.0);
  }

  /** Stored to the nearest ten-thousandth. */
  lemma {:induction false} FixedIsNearest(amount: real)
    ensures amount - 0.5 < Fixed(amount) as real <= amount + 0.5
  {
  }

  /** n years are served exactly from the n-th anniversary on. */
  lemma {:induction false} ServedFrom(hire: Date, day: int, n: nat)
    requires Valid(hire) && 0 < n
    ensures Service(hire, day) >= n as real <==> Anniversary(hire, n) <= day
    ensures Service(hire, day) > n as real <==> Anniversary(hire, n) < day
  {
    AnniversaryInYear(hire, 0);
    AnniversariesRise(hire, 0, n);
    ServiceOnAnniversary(hire, n);
    if day < Anniversary(hire, n) {
      FewerServed(hire, day, n);
    } else if Anniversary(hire, n) < day {
      ServiceRises(hire, Anniversary(hire, n), day);
    }
  }

  lemma {:induction false} FewerServed(hire: Date, day: int, n: nat)
    requires Valid(hire) && 0 < n && day < Anniversary(hire, n)
    ensures Service(hire, day) < n as real
  {
    var m := Completed(hire, day, 0);
    CompletedWithin(hire, day, 0);
    ServiceInYear(hire, day);
    if n <= m {
      AnniversariesRise(hire, n, m);
    }
  }

  /** The award before rounding: half the wage for each year served up to five, the whole wage for every year beyond. */
  lemma {:induction false} GrossIs(wage: nat, years: real)
    requires 0.0 <= years
    ensures years <= 5.0 ==> 2.0 * Gross(wage, years) == wage as real * years
    ensures 5.0 <= years ==> 2.0 * Gross(wage, years) == wage as real * (2.0 * years - 5.0)
  {
    GrossIsMonths(wage, years);
    Doubles(wage as real, Months(years));
  }

  /** Article 85 by the calendar: a resignation before the second anniversary keeps nothing; from then to the fifth, that
      day included, a third of the award; after it and before the tenth two thirds; from the tenth on all of it. */
  lemma {:induction false} ResignationKeeps(wage: nat, hire: Date, day: int)
    requires Valid(hire)
    ensures var years := Service(hire, day);
      var gross, net := Gross(wage, years), Net(wage, years, Resignation);
      && (day < Anniversary(hire, 2) ==> net == 0.0)
      && (Anniversary(hire, 2) <= day <= Anniversary(hire, 5) ==> 3.0 * net == gross)
      && (Anniversary(hire, 5) < day < Anniversary(hire, 10) ==> 3.0 * net == 2.0 * gross)
      && (Anniversary(hire, 10) <= day ==> net == gross)
  {
    ServedFrom(hire, day, 2);
    ServedFrom(hire, day, 5);
    ServedFrom(hire, day, 10);
    AnniversariesRise(hire, 2, 5);
    AnniversariesRise(hire, 5, 10);
  }

  /** Article 87: anyone else keeps all of it. */
  lemma {:induction false} OthersKeepAll(wage: nat, hire: Date, day: int, reason: Reason)
    requires Valid(hire) && reason != Resignation
    ensures Net(wage, Service(hire, day), reason) == Gross(wage, Service(hire, day))
    ensures SettlementFor(wage, hire, day, reason).net == SettlementFor(wage, hire, day, reason).gross
  {
  }

  lemma {:induction false} FixedRises(a: real, b: real)
    requires 0.0 <= a <= b
    ensures 0 <= Fixed(a) <= Fixed(b)
  {
  }

  /** Leaving later never pays less, whatever the reason, and the net award never exceeds the gross - rounded
      as they are stored. */
  lemma {:induction false} LaterNeverPaysLess(wage: nat, hire: Date, early: int, late: int, reason: Reason)
    requires Valid(hire) && early <= late
    ensures var a, b := SettlementFor(wage, hire, early, reason), SettlementFor(wage, hire, late, reason);
      0 <= a.gross <= b.gross && 0 <= a.net <= b.net && b.net <= b.gross
  {
    if early < late {
      ServiceRises(hire, early, late);
    }
    ServiceInYear(hire, early);
    var x, y := Service(hire, early), Service(hire, late);
    GrossRises(wage, x, y);
    NetRises(wage, x, y, reason);
    FixedRises(Gross(wage, x), Gross(wage, y));
    FixedRises(Net(wage, x, reason), Net(wage, y, reason));
    FixedRises(Net(wage, y, reason), Gross(wage, y));
  }

  /** computeEndOfServiceSettlement */
  method ComputeEndOfServiceSettlement(wage: nat, hire: Date, termination: Date, reason: Reason) returns (s: Settlement)
    requires Valid(hire) && Valid(termination)
    ensures s == SettlementFor(wage, hire, DayNumber(termination), reason)
  {
    var whole, daysSince, daysInYear := YearsOfServiceBetween(hire, termination);
    var years := whole as real + Part(daysSince, daysInYear);
    s := Settlement(Fixed(Gross(wage, years)), Fixed(Net(wage, years, reason)));
  }

  /** Half a month for each year to the fifth, a whole one for each after. */
  function HalfMonthsAt(n: nat): nat { if n <= 5 then n else 2 * n - 5 }

  lemma {:induction false} MonthsAt(n: nat)
    ensures 2.0 * Months(n as real) == HalfMonthsAt(n) as real
  {
  }

  lemma {:induction false} AwardForWholeYears(wage: nat, n: nat)
    ensures 2.0 * Gross(wage, n as real) == wage as real * HalfMonthsAt(n) as real
  {
    GrossIsMonths(wage, n as real);
    MonthsAt(n);
    Doubles(wage as real, Months(n as real));
  }

  lemma {:induction false} Doubles(w: real, m: real)
    ensures 2.0 * (w * m) == w * (2.0 * m)
  {
  }
}
