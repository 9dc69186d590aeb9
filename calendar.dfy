/**
 * Calendar dates as validated (day, month, year) triples of the proleptic
 * Gregorian calendar, a day number that turns "one day earlier/later" into
 * integer arithmetic, and the `DD.MM.YYYY` text form that records carry in
 * `createdAt`.
 */
module Calendar {
  import opened Wrappers
  import Seqs

  /** A calendar date; `month` is 1-based (January is 1). */
  datatype Date = Date(day: nat, month: nat, year: nat)

  predicate LeapYear(y: nat)
  {
    y % 4 == 0 && (y % 100 != 0 || y % 400 == 0)
  }

  function YearLength(y: nat): nat
  {
    if LeapYear(y) then 366 else 365
  }

  function DaysInMonth(m: nat, y: nat): (n: nat)
    ensures 28 <= n <= 31
  {
    if m == 2 then (if LeapYear(y) then 29 else 28)
    else if m == 4 || m == 6 || m == 9 || m == 11 then 30
    else 31
  }

  /** A date that exists: no 31 April, no 29 February outside leap years. */
  predicate ValidDate(d: Date)
  {
    1 <= d.month <= 12 && 1 <= d.day <= DaysInMonth(d.month, d.year)
  }

  /** Days in the years before `y` (counting from year 0). */
  function DaysBeforeYear(y: nat): nat
  {
    if y == 0 then 0 else DaysBeforeYear(y - 1) + YearLength(y - 1)
  }

  /** Days in year `y` before the first day of month `m`. */
  function DaysBeforeMonth(m: nat, y: nat): nat
  {
    var common :=
      match m
      case 1 => 0 case 2 => 31 case 3 => 59 case 4 => 90
      case 5 => 120 case 6 => 151 case 7 => 181 case 8 => 212
      case 9 => 243 case 10 => 273 case 11 => 304 case _ => 334;
    common + (if m > 2 && LeapYear(y) then 1 else 0)
  }

  /** Consecutive dates have consecutive day numbers; this is what `add(1, 'day')` moves along. */
  function DayNumber(d: Date): nat
  {
    DaysBeforeYear(d.year) + DaysBeforeMonth(d.month, d.year) + d.day
  }

  /** Strict calendar order: earlier year, or same year and earlier month, or same month and earlier day. */
  predicate Before(a: Date, b: Date)
  {
    a.year < b.year
    || (a.year == b.year && a.month < b.month)
    || (a.year == b.year && a.month == b.month && a.day < b.day)
  }

  predicate OnOrBefore(a: Date, b: Date)
  {
    a == b || Before(a, b)
  }

  lemma MonthStep(m: nat, y: nat)
    requires 1 <= m <= 12
    ensures m < 12 ==> DaysBeforeMonth(m, y) + DaysInMonth(m, y) == DaysBeforeMonth(m + 1, y)
    ensures m == 12 ==> DaysBeforeMonth(m, y) + DaysInMonth(m, y) == YearLength(y)
  {
  }

  /** A month ends no later than any later month of the same year begins. */
  lemma {:induction false} MonthsInOrder(m1: nat, m2: nat, y: nat)
    requires 1 <= m1 < m2 <= 12
    ensures DaysBeforeMonth(m1, y) + DaysInMonth(m1, y) <= DaysBeforeMonth(m2, y)
    decreases m2 - m1
  {
    MonthStep(m1, y);
    if m1 + 1 < m2 {
      MonthsInOrder(m1 + 1, m2, y);
    }
  }

  /** A year ends no later than any later year begins. */
  lemma {:induction false} YearsInOrder(y1: nat, y2: nat)
    requires y1 < y2
    ensures DaysBeforeYear(y1) + YearLength(y1) <= DaysBeforeYear(y2)
    decreases y2 - y1
  {
    if y1 + 1 < y2 {
      YearsInOrder(y1 + 1, y2);
    }
  }

  /** Day numbers follow the calendar order. */
  lemma DayNumberIncreasing(a: Date, b: Date)
    requires ValidDate(a) && ValidDate(b) && Before(a, b)
    ensures DayNumber(a) < DayNumber(b)
  {
    MonthStep(a.month, a.year);
    if a.year < b.year {
      if a.month < 12 {
        MonthsInOrder(a.month, 12, a.year);
        MonthStep(12, a.year);
      }
      YearsInOrder(a.year, b.year);
    } else if a.month < b.month {
      MonthsInOrder(a.month, b.month, a.year);
    }
  }

  /** Comparing day numbers is comparing dates, in both directions. */
  lemma DayNumberOrder(a: Date, b: Date)
    requires ValidDate(a) && ValidDate(b)
    ensures DayNumber(a) < DayNumber(b) <==> Before(a, b)
    ensures DayNumber(a) == DayNumber(b) <==> a == b
  {
    if Before(a, b) {
      DayNumberIncreasing(a, b);
    } else if Before(b, a) {
      DayNumberIncreasing(b, a);
    }
  }

  // ---- the DD.MM.YYYY text form ----

  predicate IsDigit(c: char)
  {
    '0' <= c <= '9'
  }

  predicate AllDigits(s: string)
  {
    forall i :: 0 <= i < |s| ==> IsDigit(s[i])
  }

  /** The decimal value of a digit string, as `Number(s)` reads it. */
  function DigitsValue(s: string): nat
    requires AllDigits(s)
    decreases |s|
  {
    if s == [] then 0
    else DigitsValue(s[..|s| - 1]) * 10 + (s[|s| - 1] as int - '0' as int)
  }

  function Pow10(n: nat): nat
  {
    if n == 0 then 1 else 10 * Pow10(n - 1)
  }

  /** A string of `n` digits denotes a number below `10^n`. */
  lemma {:induction false} DigitsBound(s: string)
    requires AllDigits(s)
    ensures DigitsValue(s) < Pow10(|s|)
    decreases |s|
  {
    if s != [] {
      var init := s[..|s| - 1];
      assert AllDigits(init) by {
        forall i | 0 <= i < |init| ensures IsDigit(init[i]) {
          assert init[i] == s[i];
        }
      }
      DigitsBound(init);
      assert IsDigit(s[|s| - 1]);
    }
  }

  /** A date field of `lo` to `hi` decimal digits. */
  function ParseField(s: string, lo: nat, hi: nat): (r: Option<nat>)
    ensures r.Some? <==> lo <= |s| <= hi && AllDigits(s)
    ensures r.Some? ==> r.value < Pow10(|s|)
  {
    if lo <= |s| <= hi && AllDigits(s) then DigitsBound(s); Some(DigitsValue(s)) else None
  }

  /**
   * `createdAt.split('.')` read as day, month and year. Only the first three
   * pieces are used, as the source does. A string is well-formed when day and
   * month have one or two digits, the year has four digits and lies in
   * 100..9999, and the triple is a date that exists; anything else is malformed.
   */
  function ParseCreatedAt(s: string): (r: Option<Date>)
    ensures r.Some? ==> ValidDate(r.value) && 100 <= r.value.year <= 9999
  {
    var parts := Seqs.Split(s, '.');
    if |parts| < 3 then None
    else
      match (ParseField(parts[0], 1, 2), ParseField(parts[1], 1, 2), ParseField(parts[2], 4, 4))
      case (Some(day), Some(month), Some(year)) =>
        var d := Date(day, month, year);
        if ValidDate(d) && year >= 100 then Some(d) else None
      case _ => None
  }

  function Digit(n: nat): (c: char)
    requires n < 10
    ensures IsDigit(c)
  {
    ('0' as int + n) as char
  }

  function Pad2(n: nat): (s: string)
    requires n < 100
    ensures |s| == 2 && AllDigits(s)
  {
    [Digit(n / 10), Digit(n % 10)]
  }

  function Pad4(n: nat): (s: string)
    requires n < 10000
    ensures |s| == 4 && AllDigits(s)
  {
    [Digit(n / 1000), Digit(n / 100 % 10), Digit(n / 10 % 10), Digit(n % 10)]
  }

  /** A date written `DD.MM.YYYY` with leading zeros, as the server stores `createdAt`. */
  function FormatDate(d: Date): string
    requires ValidDate(d) && d.year <= 9999
  {
    Pad2(d.day) + "." + Pad2(d.month) + "." + Pad4(d.year)
  }

  lemma Pad2Value(n: nat)
    requires n < 100
    ensures DigitsValue(Pad2(n)) == n
  {
    var s := Pad2(n);
    assert s[..1][..0] == [];
    assert DigitsValue(s[..1]) == n / 10;
  }

  lemma Pad4Value(n: nat)
    requires n < 10000
    ensures DigitsValue(Pad4(n)) == n
  {
    var s := Pad4(n);
    assert s[..1][..0] == [];
    assert s[..2][..1] == s[..1];
    assert s[..3][..2] == s[..2];
    assert DigitsValue(s[..1]) == n / 1000;
    assert DigitsValue(s[..2]) == n / 100;
    assert DigitsValue(s[..3]) == n / 10;
  }

  /** Reading back a formatted date gives the date. */
  lemma {:induction false} ParseFormatRoundTrip(d: Date)
    requires ValidDate(d) && 100 <= d.year <= 9999
    ensures ParseCreatedAt(FormatDate(d)) == Some(d)
  {
    var dd, mm, yyyy := Pad2(d.day), Pad2(d.month), Pad4(d.year);
    assert '.' !in dd && '.' !in mm && '.' !in yyyy by {
      assert !IsDigit('.');
    }
    Seqs.SplitNoSeparator(yyyy, '.');
    Seqs.SplitAfterFirst(mm, '.', yyyy);
    Seqs.SplitAfterFirst(dd, '.', mm + "." + yyyy);
    assert FormatDate(d) == dd + ['.'] + (mm + ['.'] + yyyy);
    Pad2Value(d.day);
    Pad2Value(d.month);
    Pad4Value(d.year);
  }
}
