/**
 * Proleptic Gregorian civil dates, the arithmetic `Date.setDate` performs,
 * `getDay`, and the `YYYY-MM-DD` strings the period filters compare.
 * Dates are taken in UTC (the server clock's zone).
 */
module Calendar {
  import opened Strings

  datatype Date = Date(year: nat, month: nat, day: nat)

  predicate IsLeap(y: nat)
  {
    y % 4 == 0 && (y % 100 != 0 || y % 400 == 0)
  }

  function DaysInMonth(y: nat, m: nat): (n: nat)
    requires 1 <= m <= 12
    ensures 28 <= n <= 31
  {
    if m == 2 then (if IsLeap(y) then 29 else 28)
    else if m == 4 || m == 6 || m == 9 || m == 11 then 30
    else 31
  }

  function YearLength(y: nat): nat
  {
    if IsLeap(y) then 366 else 365
  }

  predicate Valid(d: Date)
  {
    d.year >= 1 && 1 <= d.month <= 12 && 1 <= d.day <= DaysInMonth(d.year, d.month)
  }

  /** Days from 0001-01-01 to the first of January of year `y`. */
  function DaysBeforeYear(y: nat): nat
    requires y >= 1
  {
    if y == 1 then 0 else DaysBeforeYear(y - 1) + YearLength(y - 1)
  }

  /** Days from the first of January of year `y` to the first of month `m`. */
  function DaysBeforeMonth(y: nat, m: nat): nat
    requires 1 <= m <= 13
  {
    if m == 1 then 0 else DaysBeforeMonth(y, m - 1) + DaysInMonth(y, m - 1)
  }

  lemma {:induction false} DaysBeforeMonthYear(y: nat)
    ensures DaysBeforeMonth(y, 13) == YearLength(y)
  {
    assert DaysBeforeMonth(y, 2) == 31;
    assert DaysBeforeMonth(y, 3) == 31 + DaysInMonth(y, 2);
    assert DaysBeforeMonth(y, 4) == DaysBeforeMonth(y, 3) + 31;
    assert DaysBeforeMonth(y, 5) == DaysBeforeMonth(y, 4) + 30;
    assert DaysBeforeMonth(y, 6) == DaysBeforeMonth(y, 5) + 31;
    assert DaysBeforeMonth(y, 7) == DaysBeforeMonth(y, 6) + 30;
    assert DaysBeforeMonth(y, 8) == DaysBeforeMonth(y, 7) + 31;
    assert DaysBeforeMonth(y, 9) == DaysBeforeMonth(y, 8) + 31;
    assert DaysBeforeMonth(y, 10) == DaysBeforeMonth(y, 9) + 30;
    assert DaysBeforeMonth(y, 11) == DaysBeforeMonth(y, 10) + 31;
    assert DaysBeforeMonth(y, 12) == DaysBeforeMonth(y, 11) + 30;
    assert DaysBeforeMonth(y, 13) == DaysBeforeMonth(y, 12) + 31;
  }

  lemma {:induction false} DaysBeforeMonthMono(y: nat, m1: nat, m2: nat)
    requires 1 <= m1 <= m2 <= 13
    ensures DaysBeforeMonth(y, m1) <= DaysBeforeMonth(y, m2)
    decreases m2 - m1
  {
    if m1 < m2 { DaysBeforeMonthMono(y, m1 + 1, m2); }
  }

  lemma {:induction false} DaysBeforeYearMono(y1: nat, y2: nat)
    requires 1 <= y1 <= y2
    ensures DaysBeforeYear(y1) + (if y1 < y2 then YearLength(y1) else 0) <= DaysBeforeYear(y2)
    decreases y2 - y1
  {
    if y1 + 1 < y2 { DaysBeforeYearMono(y1 + 1, y2); }
  }

  /** The number of days from 0001-01-01 to `d`. */
  function DayNumber(d: Date): nat
    requires Valid(d)
  {
    DaysBeforeYear(d.year) + DaysBeforeMonth(d.year, d.month) + d.day - 1
  }

  /** `getDay()`: 0 for Sunday up to 6 for Saturday; 0001-01-01 was a Monday. */
  function DayOfWeek(d: Date): (w: nat)
    requires Valid(d)
    ensures w < 7
  {
    (DayNumber(d) + 1) % 7
  }

  /** The calendar day before `d`. */
  function PrevDay(d: Date): (r: Date)
    requires Valid(d) && DayNumber(d) > 0
    ensures Valid(r) && DayNumber(r) == DayNumber(d) - 1
  {
    if d.day > 1 then Date(d.year, d.month, d.day - 1)
    else if d.month > 1 then Date(d.year, d.month - 1, DaysInMonth(d.year, d.month - 1))
    else
      DaysBeforeMonthYear(d.year - 1);
      Date(d.year - 1, 12, 31)
  }

  /** `x.setDate(x.getDate() - k)`: `k` days earlier, rolling over month and year ends. */
  function StepBack(d: Date, k: nat): (r: Date)
    requires Valid(d) && k <= DayNumber(d)
    ensures Valid(r) && DayNumber(r) == DayNumber(d) - k
    decreases k
  {
    if k == 0 then d else StepBack(PrevDay(d), k - 1)
  }

  /** The Sunday that starts the week of `d` (`setDate(getDate() - getDay())`). */
  function WeekStart(d: Date): (r: Date)
    requires Valid(d) && d.year >= 2
    ensures Valid(r) && DayOfWeek(r) == 0
    ensures DayNumber(d) - 6 <= DayNumber(r) <= DayNumber(d)
  {
    SundayBefore(d);
    StepBack(d, DayOfWeek(d))
  }

  /** Stepping back by the weekday stays within the calendar and lands on a Sunday. */
  lemma SundayBefore(d: Date)
    requires Valid(d) && d.year >= 2
    ensures DayOfWeek(d) <= DayNumber(d)
    ensures DayOfWeek(StepBack(d, DayOfWeek(d))) == 0
  {
    DaysBeforeYearMono(1, d.year);
    assert DayNumber(d) >= 365;
    var x := DayNumber(d) + 1;
    var w := DayOfWeek(d);
    var r := StepBack(d, w);
    var y := DayNumber(r) + 1;
    assert y == x - x % 7;
    RemoveResidue(x, 7, y);
    SundayAt(r, y);
  }

  lemma SundayAt(r: Date, y: int)
    requires Valid(r) && y == DayNumber(r) + 1 && y % 7 == 0
    ensures DayOfWeek(r) == 0
  {
  }

  /** Subtracting the remainder leaves a multiple of the divisor. */
  lemma RemoveResidue(x: nat, k: nat, y: int)
    requires k > 0 && y == x - x % k
    ensures y % k == 0
  {
    DivModUnique(y, k, x / k, 0);
  }

  /** The first day of the month of `d`. */
  function MonthStart(d: Date): (r: Date)
    requires Valid(d)
    ensures Valid(r) && r.year == d.year && r.month == d.month && r.day == 1
    ensures DayNumber(r) <= DayNumber(d)
  {
    Date(d.year, d.month, 1)
  }

  /** Lexicographic order of (year, month, day). */
  predicate DateLe(a: Date, b: Date)
  {
    a.year < b.year || (a.year == b.year && (a.month < b.month || (a.month == b.month && a.day <= b.day)))
  }

  /** For valid dates the calendar order is the order of day numbers. */
  lemma DateLeIff(a: Date, b: Date)
    requires Valid(a) && Valid(b)
    ensures DateLe(a, b) <==> DayNumber(a) <= DayNumber(b)
  {
    if a.year < b.year {
      DayNumberInYear(a);
      DaysBeforeYearMono(a.year, b.year);
    } else if b.year < a.year {
      DayNumberInYear(b);
      DaysBeforeYearMono(b.year, a.year);
    } else if a.month < b.month {
      DaysBeforeMonthMono(a.year, a.month + 1, b.month);
    } else if b.month < a.month {
      DaysBeforeMonthMono(b.year, b.month + 1, a.month);
    }
  }

  lemma DayNumberInYear(d: Date)
    requires Valid(d)
    ensures DayNumber(d) < DaysBeforeYear(d.year) + YearLength(d.year)
  {
    DaysBeforeMonthMono(d.year, d.month + 1, 13);
    DaysBeforeMonthYear(d.year);
  }

  /** Two dates with a whole year between them are more than a year of days apart. */
  lemma YearsApart(a: Date, b: Date)
    requires Valid(a) && Valid(b) && a.year + 2 <= b.year
    ensures DayNumber(a) + 365 < DayNumber(b)
  {
    DayNumberInYear(a);
    DaysBeforeYearMono(a.year + 1, b.year - 1);
    assert DaysBeforeYear(a.year + 1) == DaysBeforeYear(a.year) + YearLength(a.year);
    assert DaysBeforeYear(b.year) == DaysBeforeYear(b.year - 1) + YearLength(b.year - 1);
  }

  /** Year range in which `String(year)` has exactly four digits. */
  predicate FourDigitYear(d: Date)
  {
    1000 <= d.year <= 9999
  }

  /** `${year}-${MM}-${DD}` with the month and day padded to two digits. */
  function Iso(d: Date): string
    requires Valid(d)
  {
    NatToString(d.year) + "-" + Pad2(d.month) + "-" + Pad2(d.day)
  }

  /** The ISO text of a four-digit-year date is fixed-width digits. */
  lemma IsoFixed(d: Date)
    requires Valid(d) && FourDigitYear(d)
    ensures Iso(d) == Fixed(4, d.year) + ("-" + (Fixed(2, d.month) + ("-" + Fixed(2, d.day))))
  {
    FourDigits(d.year);
    Pad2Fixed(d.month);
    Pad2Fixed(d.day);
  }

  /** Comparing ISO texts as JavaScript strings compares the dates. */
  lemma IsoOrder(a: Date, b: Date)
    requires Valid(a) && Valid(b) && FourDigitYear(a) && FourDigitYear(b)
    ensures LexLe(Iso(a), Iso(b)) <==> DateLe(a, b)
  {
    IsoFixed(a);
    IsoFixed(b);
    assert Pow10(4) == 10000 && Pow10(2) == 100;
    var ya, yb := Fixed(4, a.year), Fixed(4, b.year);
    var ma, mb := Fixed(2, a.month), Fixed(2, b.month);
    var da, db := Fixed(2, a.day), Fixed(2, b.day);
    FixedOrder(4, a.year, b.year);
    FixedInjective(4, a.year, b.year);
    FixedOrder(2, a.month, b.month);
    FixedInjective(2, a.month, b.month);
    FixedOrder(2, a.day, b.day);
    LexLeConcat(ya, "-" + (ma + ("-" + da)), yb, "-" + (mb + ("-" + db)));
    LexLeConcat("-", ma + ("-" + da), "-", mb + ("-" + db));
    LexLeConcat(ma, "-" + da, mb, "-" + db);
    LexLeConcat("-", da, "-", db);
    assert !LexLt("-", "-");
  }

  /** Distinct dates have distinct ISO texts. */
  lemma IsoInjective(a: Date, b: Date)
    requires Valid(a) && Valid(b) && FourDigitYear(a) && FourDigitYear(b)
    requires Iso(a) == Iso(b)
    ensures a == b
  {
    IsoOrder(a, b);
    IsoOrder(b, a);
    LexLeRefl(Iso(a));
  }
}
