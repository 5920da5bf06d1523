/**
 * Calendar dates as day numbers. A date is counted in the proleptic Gregorian calendar from
 * day 0 = 0000-01-01, and is read and written in the ISO 8601 calendar-date extended form
 * `YYYY-MM-DD` (ISO 8601:2004, section 4.1.2.2), which is the date part of what JavaScript's
 * `Date.prototype.toISOString` prints.
 */
module Calendar {
  import opened Basics
  import opened Text

  datatype Date = Date(year: nat, month: nat, day: nat)

  predicate IsLeapYear(y: nat)
  {
    y % 4 == 0 && (y % 100 != 0 || y % 400 == 0)
  }

  function DaysInYear(y: nat): nat
  {
    if IsLeapYear(y) then 366 else 365
  }

  function DaysInMonth(y: nat, m: nat): nat
    requires 1 <= m <= 12
  {
    if m == 2 then (if IsLeapYear(y) then 29 else 28)
    else if m == 4 || m == 6 || m == 9 || m == 11 then 30
    else 31
  }

  /** Days of a common year before the first of each month; index 12 is the whole year. */
  const CumulativeDays: seq<nat> := [0, 31, 59, 90, 120, 151, 181, 212, 243, 273, 304, 334, 365]

  /** Days of year `y` before the first of month `m`; month 13 stands for the next New Year. */
  function DaysBeforeMonth(y: nat, m: nat): nat
    requires 1 <= m <= 13
  {
    CumulativeDays[m - 1] + (if m > 2 && IsLeapYear(y) then 1 else 0)
  }

  /** The months of a year follow one another without gaps and fill the year exactly. */
  lemma MonthStep(y: nat, m: nat)
    requires 1 <= m <= 12
    ensures DaysBeforeMonth(y, m + 1) == DaysBeforeMonth(y, m) + DaysInMonth(y, m)
    ensures DaysBeforeMonth(y, 13) == DaysInYear(y)
  {
  }

  /** Days from 0000-01-01 to the first of January of year `y`. */
  function DaysBeforeYear(y: nat): nat
  {
    if y == 0 then 0 else DaysBeforeYear(y - 1) + DaysInYear(y - 1)
  }

  predicate ValidDate(date: Date)
  {
    1 <= date.month <= 12 && 1 <= date.day <= DaysInMonth(date.year, date.month)
  }

  /** The day number of a valid date. */
  function DayNumber(date: Date): nat
    requires ValidDate(date)
  {
    DaysBeforeYear(date.year) + DaysBeforeMonth(date.year, date.month) + date.day - 1
  }

  /** The year holding the `n`-th day counted from the first of January of year `y`. */
  function YearOf(n: nat, y: nat): (r: (nat, nat))
    ensures r.0 >= y && r.1 < DaysInYear(r.0)
    ensures DaysBeforeYear(r.0) + r.1 == DaysBeforeYear(y) + n
    decreases n
  {
    if n < DaysInYear(y) then (y, n) else YearOf(n - DaysInYear(y), y + 1)
  }

  /** The month of year `y` holding the `r`-th day counted from the first of month `m`. */
  function MonthOf(y: nat, r: nat, m: nat): (res: (nat, nat))
    requires 1 <= m <= 12 && DaysBeforeMonth(y, m) + r < DaysInYear(y)
    ensures m <= res.0 <= 12 && res.1 < DaysInMonth(y, res.0)
    ensures DaysBeforeMonth(y, res.0) + res.1 == DaysBeforeMonth(y, m) + r
    decreases 12 - m
  {
    MonthStep(y, m);
    if r < DaysInMonth(y, m) then (m, r) else MonthOf(y, r - DaysInMonth(y, m), m + 1)
  }

  /** The date of day number `n`: a valid date whose day number is `n`. */
  function FromDayNumber(n: nat): (date: Date)
    ensures ValidDate(date) && DayNumber(date) == n
  {
    var (y, r) := YearOf(n, 0);
    MonthStep(y, 1);
    var (m, d) := MonthOf(y, r, 1);
    Date(y, m, d + 1)
  }

  /** Later years start later, by at least the length of the earlier year. */
  lemma {:induction false} DaysBeforeYearGrows(a: nat, b: nat)
    requires a < b
    ensures DaysBeforeYear(a) + DaysInYear(a) <= DaysBeforeYear(b)
    decreases b - a
  {
    if a + 1 < b {
      DaysBeforeYearGrows(a + 1, b);
    }
  }

  /** Day numbering is one-to-one on valid dates. */
  lemma DayNumberInjective(a: Date, b: Date)
    requires ValidDate(a) && ValidDate(b) && DayNumber(a) == DayNumber(b)
    ensures a == b
  {
    MonthStep(a.year, a.month);
    MonthStep(b.year, b.month);
    if a.year < b.year {
      DaysBeforeYearGrows(a.year, b.year);
      assert false;
    } else if b.year < a.year {
      DaysBeforeYearGrows(b.year, a.year);
      assert false;
    }
  }

  /** Converting a valid date to its day number and back gives the date. */
  lemma FromDayNumberOfDate(date: Date)
    requires ValidDate(date)
    ensures FromDayNumber(DayNumber(date)) == date
  {
    DayNumberInjective(FromDayNumber(DayNumber(date)), date);
  }

  // ---------------------------------------------------------------- ISO 8601 text

  /**
   * The year as `toISOString` writes it: four digits for years 0 to 9999, otherwise a `+` and
   * six digits (the expanded form JavaScript uses up to its largest year, 275760).
   */
  function FormatYear(y: nat): string
  {
    if y <= 9999 then Digits(y, 4)
    else if y <= 999999 then "+" + Digits(y, 6)
    else "+" + NatToString(y)
  }

  /** The `YYYY-MM-DD` text of day number `n` (`date.toISOString().split('T')[0]`). */
  function FormatIsoDate(n: nat): string
  {
    var date := FromDayNumber(n);
    FormatYear(date.year) + "-" + Digits(date.month, 2) + "-" + Digits(date.day, 2)
  }

  /** Ten characters of the shape `DDDD-DD-DD`. */
  predicate IsIsoDateShape(s: string)
  {
    && |s| == 10 && s[4] == '-' && s[7] == '-'
    && AllDigits(s[..4]) && AllDigits(s[5..7]) && AllDigits(s[8..])
  }

  /** The day number of a `YYYY-MM-DD` text naming a real calendar day; nothing otherwise. */
  function ParseIsoDate(s: string): Option<nat>
  {
    if !IsIsoDateShape(s) then None
    else
      var date := DateOfText(s);
      if ValidDate(date) then Some(DayNumber(date)) else None
  }

  /** The day number of 10000-01-01: days below it have four-digit years. */
  function FirstFiveDigitYearDay(): nat
  {
    DaysBeforeYear(10000)
  }

  lemma Pow10Values()
    ensures Pow10(2) == 100 && Pow10(4) == 10000
  {
    assert Pow10(1) == 10;
    assert Pow10(3) == 1000;
  }

  /** The date a text of the right shape names, whether or not it is a real calendar day. */
  function DateOfText(s: string): Date
    requires IsIsoDateShape(s)
  {
    Date(ParseDigits(s[..4]), ParseDigits(s[5..7]), ParseDigits(s[8..]))
  }

  /** A date whose year, month and day are written back at widths 4, 2 and 2 gives the text it was read from. */
  lemma FormatDateOfText(s: string)
    requires IsIsoDateShape(s)
    ensures var date := DateOfText(s);
      date.year <= 9999 && FormatYear(date.year) + "-" + Digits(date.month, 2) + "-" + Digits(date.day, 2) == s
  {
    ParseDigitsBound(s[..4]);
    Pow10Values();
    DigitsOfParse(s[..4]);
    DigitsOfParse(s[5..7]);
    DigitsOfParse(s[8..]);
    assert s == s[..4] + "-" + s[5..7] + "-" + s[8..];
  }

  /** A date of a four-digit year, written at widths 4, 2 and 2, has the `YYYY-MM-DD` shape and names that date. */
  lemma DateOfFormattedText(date: Date)
    requires ValidDate(date) && date.year <= 9999
    ensures var t := FormatYear(date.year) + "-" + Digits(date.month, 2) + "-" + Digits(date.day, 2);
      IsIsoDateShape(t) && DateOfText(t) == date
  {
    assert FormatYear(date.year) == Digits(date.year, 4);
    FieldsRoundTrip(date.year, date.month, date.day);
  }

  /** Numbers written at widths 4, 2 and 2 and joined by dashes read back as themselves. */
  lemma FieldsRoundTrip(year: nat, month: nat, day: nat)
    requires year <= 9999 && month < 100 && day < 100
    ensures var t := Digits(year, 4) + "-" + Digits(month, 2) + "-" + Digits(day, 2);
      IsIsoDateShape(t) && DateOfText(t) == Date(year, month, day)
  {
    Pow10Values();
    DigitsValue(year, 4);
    DigitsValue(month, 2);
    DigitsValue(day, 2);
    IsoTextFields(Digits(year, 4), Digits(month, 2), Digits(day, 2));
  }

  /** Digit fields of widths 4, 2 and 2 joined by dashes have the `YYYY-MM-DD` shape and slice back into the fields. */
  lemma IsoTextFields(y: string, m: string, d: string)
    requires |y| == 4 && |m| == 2 && |d| == 2 && AllDigits(y) && AllDigits(m) && AllDigits(d)
    ensures var t := y + "-" + m + "-" + d;
      IsIsoDateShape(t) && t[..4] == y && t[5..7] == m && t[8..] == d
  {
    var t := y + "-" + m + "-" + d;
    assert t[..4] == y && t[5..7] == m && t[8..] == d;
  }

  /** A day before year 10000 is written in four-digit-year form and reads back as itself. */
  lemma ParseFormatIsoDate(n: nat)
    requires n < FirstFiveDigitYearDay()
    ensures ParseIsoDate(FormatIsoDate(n)) == Some(n)
  {
    var date := FromDayNumber(n);
    if date.year > 9999 {
      DaysBeforeYearGrows(9999, date.year);
      assert false;
    }
    DateOfFormattedText(date);
  }

  /** A valid `YYYY-MM-DD` text is exactly what formatting its day number writes. */
  lemma FormatParseIsoDate(s: string)
    requires ParseIsoDate(s).Some?
    ensures FormatIsoDate(ParseIsoDate(s).value) == s
    ensures ParseIsoDate(s).value < FirstFiveDigitYearDay()
  {
    var date := DateOfText(s);
    FromDayNumberOfDate(date);
    FormatDateOfText(s);
    MonthStep(date.year, date.month);
    if date.year < 9999 {
      DaysBeforeYearGrows(date.year, 10000);
    } else {
      DaysBeforeYearGrows(9999, 10000);
    }
  }
}
