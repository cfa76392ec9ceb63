// The proleptic Gregorian calendar, as far as a UTC datetime needs it: which date a day is.
module Calendar {

  predicate IsLeap(year: nat) {
    year % 4 == 0 && (year % 100 != 0 || year % 400 == 0)
  }

  function DaysInMonth(year: nat, month: nat): nat
    requires 1 <= month <= 12
  {
    if month == 2 then if IsLeap(year) then 29 else 28
    else if month in {4, 6, 9, 11} then 30
    else 31
  }

  function DaysBeforeMonth(year: nat, month: nat): nat
    requires 1 <= month <= 13
  {
    if month == 1 then 0 else DaysBeforeMonth(year, month - 1) + DaysInMonth(year, month - 1)
  }

  // Days from 1 January of year 1 to 1 January of `year`.
  function DaysBeforeYear(year: nat): nat
    requires year >= 1
  {
    var years := year - 1;
    years * 365 + years / 4 - years / 100 + years / 400
  }

  function DaysInYear(year: nat): nat {
    if IsLeap(year) then 366 else 365
  }

  datatype Date = Date(year: nat, month: nat, day: nat)

  predicate Valid(d: Date) {
    d.year >= 1 && 1 <= d.month <= 12 && 1 <= d.day <= DaysInMonth(d.year, d.month)
  }

  // Days from 1 January of year 1 to `d`.
  function Ordinal(d: Date): nat
    requires Valid(d)
  {
    DaysBeforeYear(d.year) + DaysBeforeMonth(d.year, d.month) + d.day - 1
  }

  predicate Earlier(c: Date, d: Date) {
    c.year < d.year || (c.year == d.year && (c.month < d.month || (c.month == d.month && c.day < d.day)))
  }

  lemma Fours(year: nat)
    requires year >= 1
    ensures year / 4 == (year - 1) / 4 + if year % 4 == 0 then 1 else 0
  {
  }

  lemma Hundreds(year: nat)
    requires year >= 1
    ensures year / 100 == (year - 1) / 100 + if year % 100 == 0 then 1 else 0
    ensures year % 100 == 0 ==> year % 4 == 0
  {
  }

  lemma FourHundreds(year: nat)
    requires year >= 1
    ensures year / 400 == (year - 1) / 400 + if year % 400 == 0 then 1 else 0
    ensures year % 400 == 0 ==> year % 100 == 0
  {
  }

  lemma NextYear(year: nat)
    requires year >= 1
    ensures DaysBeforeYear(year + 1) == DaysBeforeYear(year) + DaysInYear(year)
  {
    Fours(year);
    Hundreds(year);
    FourHundreds(year);
  }

  lemma {:induction false} LaterYear(a: nat, b: nat)
    requires 1 <= a < b
    ensures DaysBeforeYear(a) + DaysInYear(a) <= DaysBeforeYear(b)
  {
    hide DaysBeforeYear, IsLeap;
    NextYear(b - 1);
    if a < b - 1 { LaterYear(a, b - 1); }
  }

  lemma {:induction false} LaterMonth(year: nat, a: nat, b: nat)
    requires 1 <= a < b <= 13
    ensures DaysBeforeMonth(year, a) + DaysInMonth(year, a) <= DaysBeforeMonth(year, b)
  {
    hide DaysInMonth;
    if a < b - 1 { LaterMonth(year, a, b - 1); }
  }

  lemma MonthsFillTheYear(year: nat)
    ensures DaysBeforeMonth(year, 13) == DaysInYear(year)
  {
    var leap := if IsLeap(year) then 1 else 0;
    assert DaysBeforeMonth(year, 3) == 59 + leap by { assert DaysBeforeMonth(year, 2) == 31; }
    assert DaysBeforeMonth(year, 5) == 120 + leap by { assert DaysBeforeMonth(year, 4) == 90 + leap; }
    assert DaysBeforeMonth(year, 7) == 181 + leap by { assert DaysBeforeMonth(year, 6) == 151 + leap; }
    assert DaysBeforeMonth(year, 9) == 243 + leap by { assert DaysBeforeMonth(year, 8) == 212 + leap; }
    assert DaysBeforeMonth(year, 11) == 304 + leap by { assert DaysBeforeMonth(year, 10) == 273 + leap; }
    assert DaysBeforeMonth(year, 12) == 334 + leap;
  }

  // An earlier date is an earlier day.
  lemma OrdinalIsMonotonic(c: Date, d: Date)
    requires Valid(c) && Valid(d) && Earlier(c, d)
    ensures Ordinal(c) < Ordinal(d)
  {
    hide DaysBeforeYear, DaysInMonth, IsLeap, DaysBeforeMonth;
    if c.year < d.year {
      LaterYear(c.year, d.year);
      MonthsFillTheYear(c.year);
      LaterMonth(c.year, c.month, 13);
    } else if c.month < d.month {
      LaterMonth(c.year, c.month, d.month);
    }
  }

  function YearFrom(ordinal: nat, year: nat): (y: nat)
    requires year >= 1 && DaysBeforeYear(year) <= ordinal
    ensures y >= year && DaysBeforeYear(y) <= ordinal < DaysBeforeYear(y + 1)
    decreases ordinal - DaysBeforeYear(year)
  {
    NextYear(year);
    if ordinal < DaysBeforeYear(year + 1) then year else YearFrom(ordinal, year + 1)
  }

  function MonthFrom(days: nat, year: nat, month: nat): (m: nat)
    requires 1 <= month <= 12 && DaysBeforeMonth(year, month) <= days < DaysBeforeMonth(year, 13)
    ensures month <= m <= 12 && DaysBeforeMonth(year, m) <= days < DaysBeforeMonth(year, m + 1)
    decreases 13 - month
  {
    if days < DaysBeforeMonth(year, month + 1) then month else MonthFrom(days, year, month + 1)
  }

  // The date of a day.
  function DateOf(ordinal: nat): (d: Date)
    ensures Valid(d) && Ordinal(d) == ordinal
  {
    var year := YearFrom(ordinal, 1);
    NextYear(year);
    MonthsFillTheYear(year);
    var rest := ordinal - DaysBeforeYear(year);
    var month := MonthFrom(rest, year, 1);
    Date(year, month, rest - DaysBeforeMonth(year, month) + 1)
  }

  // A later day has a later date, and a date is that of one day.
  lemma DateOfIsMonotonic(m: nat, n: nat)
    requires m < n
    ensures Earlier(DateOf(m), DateOf(n))
  {
    hide DateOf, Ordinal;
    var c, d := DateOf(m), DateOf(n);
    if !Earlier(c, d) && c != d { OrdinalIsMonotonic(d, c); }
  }

  lemma DateOfOrdinal(d: Date)
    requires Valid(d)
    ensures DateOf(Ordinal(d)) == d
  {
    hide DateOf, Ordinal;
    var c := DateOf(Ordinal(d));
    if Earlier(c, d) { OrdinalIsMonotonic(c, d); }
    if Earlier(d, c) { OrdinalIsMonotonic(d, c); }
  }

  const EPOCH: nat := 719162

  lemma EpochIsIn1970()
    ensures Ordinal(Date(1970, 1, 1)) == EPOCH
  {
  }

  // The years that a datetime can name have four digits.
  lemma YearsUpTo9999(ordinal: nat)
    requires ordinal < DaysBeforeYear(10000)
    ensures DateOf(ordinal).year <= 9999
  {
    hide DateOf, DaysBeforeMonth;
    var d := DateOf(ordinal);
    assert DaysBeforeYear(d.year) <= Ordinal(d);
  }
}
