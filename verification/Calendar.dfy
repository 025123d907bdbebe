/**
 The Gregorian date stamped into the camera firmware (p2p-camera/device-cam/build.rs): a day count
 since 1970-01-01 is turned into a year, a month and a day by two subtraction loops.

 The reference it is measured against is `DayNumber`, the closed-form day number of a date, which
 shares neither the loops nor the month table with the code.
 */
module Calendar {

  predicate IsLeap(year: nat) {
    (year % 4 == 0 && year % 100 != 0) || year % 400 == 0
  }

  function DaysInYear(year: nat): nat {
    if IsLeap(year) then 366 else 365
  }

  /** The month table of the code, for month numbers 1 to 12. */
  function DaysInMonth(year: nat, month: nat): nat
    requires 1 <= month <= 12
  {
    [31, if IsLeap(year) then 29 else 28, 31, 30, 31, 30, 31, 31, 30, 31, 30, 31][month - 1]
  }

  // ----- the reference: closed forms -----

  /** Days between 0001-01-01 and the first of January of `year`. */
  function YearStart(year: nat): nat
    requires 1 <= year
  {
    365 * (year - 1) + (year - 1) / 4 - (year - 1) / 100 + (year - 1) / 400
  }

  /** Days of `year` before the first of `month`; month 13 stands for the end of the year. */
  function MonthStart(year: nat, month: nat): int
    requires 1 <= month <= 13
  {
    (367 * month - 362) / 12 - (if month <= 2 then 0 else if IsLeap(year) then 1 else 2)
  }

  predicate ValidDate(year: nat, month: nat, day: nat) {
    1970 <= year && 1 <= month <= 12 && 1 <= day <= DaysInMonth(year, month)
  }

  /** Days from 1970-01-01 to a date. */
  function DayNumber(year: nat, month: nat, day: nat): int
    requires ValidDate(year, month, day)
  {
    YearStart(year) - YearStart(1970) + MonthStart(year, month) + day - 1
  }

  predicate Before(y1: nat, m1: nat, d1: nat, y2: nat, m2: nat, d2: nat) {
    y1 < y2 || (y1 == y2 && (m1 < m2 || (m1 == m2 && d1 < d2)))
  }

  /** Counting up by one moves the quotient exactly at the multiples. */
  lemma Quotient(n: nat, d: nat)
    requires n >= 1 && d in {4, 100, 400}
    ensures n / d == (n - 1) / d + (if n % d == 0 then 1 else 0)
  {
  }

  lemma YearStep(year: nat)
    requires 1 <= year
    ensures YearStart(year + 1) == YearStart(year) + DaysInYear(year)
  {
    Quotient(year, 4);
    Quotient(year, 100);
    Quotient(year, 400);
  }

  lemma MonthStep(year: nat, month: nat)
    requires 1 <= month <= 12
    ensures MonthStart(year, month + 1) == MonthStart(year, month) + DaysInMonth(year, month)
    ensures MonthStart(year, 1) == 0 && MonthStart(year, 13) == DaysInYear(year)
  {
  }

  lemma {:induction false} YearsApart(y1: nat, y2: nat)
    requires 1 <= y1 < y2
    ensures YearStart(y1) + DaysInYear(y1) <= YearStart(y2)
  {
    YearStep(y2 - 1);
    if y1 < y2 - 1 {
      YearsApart(y1, y2 - 1);
    }
  }

  lemma {:induction false} MonthsApart(year: nat, m1: nat, m2: nat)
    requires 1 <= m1 < m2 <= 13
    ensures MonthStart(year, m1) + DaysInMonth(year, m1) <= MonthStart(year, m2)
  {
    MonthStep(year, m2 - 1);
    if m1 < m2 - 1 {
      MonthsApart(year, m1, m2 - 1);
    }
  }

  /** A date lies inside its year. */
  lemma WithinYear(year: nat, month: nat, day: nat)
    requires ValidDate(year, month, day)
    ensures 0 <= MonthStart(year, month) + day - 1 < DaysInYear(year)
  {
    MonthStep(year, month);
    MonthsApart(year, month, 13);
    if month > 1 {
      MonthsApart(year, 1, month);
    }
  }

  /** Later dates have larger day numbers, and only those. */
  lemma DayNumberOrders(y1: nat, m1: nat, d1: nat, y2: nat, m2: nat, d2: nat)
    requires ValidDate(y1, m1, d1) && ValidDate(y2, m2, d2)
    ensures Before(y1, m1, d1, y2, m2, d2) <==> DayNumber(y1, m1, d1) < DayNumber(y2, m2, d2)
    ensures (y1, m1, d1) == (y2, m2, d2) <==> DayNumber(y1, m1, d1) == DayNumber(y2, m2, d2)
  {
    WithinYear(y1, m1, d1);
    WithinYear(y2, m2, d2);
    if y1 < y2 {
      YearsApart(y1, y2);
    } else if y2 < y1 {
      YearsApart(y2, y1);
    } else if m1 < m2 {
      MonthsApart(y1, m1, m2);
    } else if m2 < m1 {
      MonthsApart(y1, m2, m1);
    }
  }

  /** No date of 1970 or later lies before day 0, so every such date is some day's date. */
  lemma DayNumberIsNatural(year: nat, month: nat, day: nat)
    requires ValidDate(year, month, day)
    ensures DayNumber(year, month, day) >= 0
  {
    WithinYear(year, month, day);
    if 1970 < year {
      YearsApart(1970, year);
    }
  }

  /**
   The two loops of `days_to_ymd`. With `DayNumberOrders` the postcondition determines the result:
   it is the one valid date with that day number, so the method is the order-preserving inverse of
   `DayNumber`, which `DayNumberIsNatural` makes onto.
   */
  method DaysToYmd(count: nat) returns (year: nat, month: nat, day: nat)
    ensures ValidDate(year, month, day)
    ensures DayNumber(year, month, day) == count
  {
    var days: nat := count;
    year := 1970;
    while days >= DaysInYear(year)
      invariant 1970 <= year
      invariant YearStart(year) - YearStart(1970) + days == count
      decreases days
    {
      YearStep(year);
      days := days - DaysInYear(year);
      year := year + 1;
    }
    month := 1;
    ghost var rest := days;
    MonthStep(year, 1);
    while month <= 12 && days >= DaysInMonth(year, month)
      invariant 1 <= month <= 13
      invariant MonthStart(year, month) + days == rest < DaysInYear(year)
      decreases 13 - month
    {
      MonthStep(year, month);
      days := days - DaysInMonth(year, month);
      month := month + 1;
    }
    MonthStep(year, 12);
    day := days + 1;
  }
}
