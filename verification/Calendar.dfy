/**
 Calendar dates as the gamification helpers handle them: 'YYYY-MM-DD' strings whose
 predecessor is computed through a UTC `Date`. The arithmetic of `Date` (its day numbers,
 its inverse, and the two-digit-year rule of `Date.UTC`) is written out; the calendar of
 RFC 3339 (section 5.6 full-date, section 5.7 day limits, Appendix C leap years) is the
 independent definition it is compared with.
 */
module Calendar {
  import opened Common

  datatype Date = Date(y: int, m: int, d: int)

  /** RFC 3339, Appendix C. */
  predicate IsLeap(y: int) {
    y % 4 == 0 && (y % 100 != 0 || y % 400 == 0)
  }

  /** RFC 3339, section 5.7. */
  function MonthDays(m: int, leap: bool): int {
    if m == 2 then (if leap then 29 else 28)
    else if m == 4 || m == 6 || m == 9 || m == 11 then 30
    else 31
  }

  function DaysInMonth(y: int, m: int): int {
    MonthDays(m, IsLeap(y))
  }

  predicate ValidDate(date: Date) {
    1 <= date.m <= 12 && 1 <= date.d <= DaysInMonth(date.y, date.m)
  }

  /** The day before, by the calendar alone. */
  function Predecessor(date: Date): Date {
    if date.d > 1 then Date(date.y, date.m, date.d - 1)
    else if date.m > 1 then Date(date.y, date.m - 1, DaysInMonth(date.y, date.m - 1))
    else Date(date.y - 1, 12, 31)
  }

  // ---------------------------------------------------------------- day numbers

  /** The day number of the first of January (day 0 is 1970-01-01). */
  function DayFromYear(y: int): int {
    365 * (y - 1970) + (y - 1969) / 4 - (y - 1901) / 100 + (y - 1601) / 400
  }

  /** Days of the year before month `m0`, counted from 0. */
  function DaysBefore(m0: int, leap: bool): int {
    var plain := if m0 <= 0 then 0 else if m0 == 1 then 31 else if m0 == 2 then 59 else if m0 == 3 then 90
                 else if m0 == 4 then 120 else if m0 == 5 then 151 else if m0 == 6 then 181 else if m0 == 7 then 212
                 else if m0 == 8 then 243 else if m0 == 9 then 273 else if m0 == 10 then 304 else if m0 == 11 then 334 else 365;
    if leap && m0 >= 2 then plain + 1 else plain
  }

  /** `MakeDay`: months and days may overflow their range. */
  function MakeDay(y: int, m0: int, d: int): int {
    var year, month := y + m0 / 12, m0 % 12;
    DayFromYear(year) + DaysBefore(month, IsLeap(year)) + d - 1
  }

  function DayNumber(date: Date): int {
    MakeDay(date.y, date.m - 1, date.d)
  }

  /** A floored quotient steps exactly at the multiples. */
  lemma QuotientSteps(y: int)
    ensures (y - 1968) / 4 - (y - 1969) / 4 == (if y % 4 == 0 then 1 else 0)
    ensures (y - 1900) / 100 - (y - 1901) / 100 == (if y % 100 == 0 then 1 else 0)
    ensures (y - 1600) / 400 - (y - 1601) / 400 == (if y % 400 == 0 then 1 else 0)
  {
    assert (y - 1968) / 4 == y / 4 - 492;
    assert (y - 1900) / 100 == y / 100 - 19;
    assert (y - 1600) / 400 == y / 400 - 4;
  }

  lemma MultiplesNest(y: int)
    ensures y % 400 == 0 ==> y % 100 == 0
    ensures y % 100 == 0 ==> y % 4 == 0
  {
  }

  lemma YearLength(y: int)
    ensures DayFromYear(y + 1) - DayFromYear(y) == (if IsLeap(y) then 366 else 365)
  {
    QuotientSteps(y);
    MultiplesNest(y);
    assert y + 1 - 1969 == y - 1968 && y + 1 - 1901 == y - 1900 && y + 1 - 1601 == y - 1600;
  }

  /** The year containing a day number, searched from `y`. */
  function YearFrom(n: int, y: int): (r: int)
    ensures DayFromYear(r) <= n < DayFromYear(r + 1)
    decreases if n < DayFromYear(y) then 1 else 0, if n < DayFromYear(y) then DayFromYear(y) - n else n - DayFromYear(y)
  {
    hide IsLeap, DayFromYear;
    YearLength(y - 1);
    YearLength(y);
    if n < DayFromYear(y) then YearFrom(n, y - 1)
    else if n >= DayFromYear(y + 1) then YearFrom(n, y + 1)
    else y
  }

  /** The last month, at most `m0`, that begins on or before this day of the year. */
  function MonthFrom(day: int, leap: bool, m0: nat): (r: nat)
    requires 0 <= day
    ensures r <= m0 && DaysBefore(r, leap) <= day
    ensures r < m0 ==> day < DaysBefore(r + 1, leap)
  {
    if m0 == 0 || DaysBefore(m0, leap) <= day then m0 else MonthFrom(day, leap, m0 - 1)
  }

  /** The inverse of `MakeDay`: the calendar fields of a day number. */
  function DateOf(n: int): Date {
    var y := YearFrom(n, 1970);
    var day := n - DayFromYear(y);
    var m0 := MonthFrom(day, IsLeap(y), 11);
    Date(y, m0 + 1, day - DaysBefore(m0, IsLeap(y)) + 1)
  }

  lemma MonthLength(m: int, leap: bool)
    requires 1 <= m <= 12
    ensures DaysBefore(m, leap) - DaysBefore(m - 1, leap) == MonthDays(m, leap)
  {
  }

  /** With the month in range, `MakeDay` is a plain sum. */
  lemma MakeDayInRange(y: int, m0: int, d: int)
    requires 0 <= m0 <= 11
    ensures MakeDay(y, m0, d) == DayFromYear(y) + DaysBefore(m0, IsLeap(y)) + d - 1
  {
    assert m0 / 12 == 0 && m0 % 12 == m0;
  }

  /** The day of the month found within a year. */
  lemma MonthFromFits(day: int, leap: bool)
    requires 0 <= day < (if leap then 366 else 365)
    ensures var m0 := MonthFrom(day, leap, 11);
            0 <= m0 <= 11 && 1 <= day - DaysBefore(m0, leap) + 1 <= MonthDays(m0 + 1, leap)
  {
    MonthLength(MonthFrom(day, leap, 11) + 1, leap);
  }

  lemma {:induction false} YearsGrow(a: int, b: int)
    requires a <= b
    ensures DayFromYear(a) <= DayFromYear(b)
    decreases b - a
  {
    if a < b {
      YearLength(b - 1);
      YearsGrow(a, b - 1);
    }
  }

  lemma MonthsGrow(a: int, b: int, leap: bool)
    requires 0 <= a <= b <= 12
    ensures DaysBefore(a, leap) <= DaysBefore(b, leap)
  {
  }

  /** Every day number is the day number of a valid calendar date. */
  lemma DateOfIsValid(n: int)
    ensures ValidDate(DateOf(n)) && DayNumber(DateOf(n)) == n
  {
    hide IsLeap, DayFromYear, DaysBefore;
    var y := YearFrom(n, 1970);
    YearLength(y);
    var leap := IsLeap(y);
    var day := n - DayFromYear(y);
    MonthFromFits(day, leap);
    var m0 := MonthFrom(day, leap, 11);
    MakeDayInRange(y, m0, day - DaysBefore(m0, leap) + 1);
  }

  /** A valid date lies within its own year. */
  lemma YearBounds(a: Date)
    requires ValidDate(a)
    ensures DayNumber(a) == DayFromYear(a.y) + DaysBefore(a.m - 1, IsLeap(a.y)) + a.d - 1
    ensures DayFromYear(a.y) <= DayNumber(a) < DayFromYear(a.y + 1)
  {
    hide IsLeap, DayFromYear;
    var leap := IsLeap(a.y);
    YearLength(a.y);
    MonthLength(a.m, leap);
    MonthsGrow(a.m, 12, leap);
    MonthsGrow(0, a.m - 1, leap);
    MakeDayInRange(a.y, a.m - 1, a.d);
  }

  lemma SameYear(a: Date, b: Date)
    requires ValidDate(a) && ValidDate(b) && DayNumber(a) == DayNumber(b)
    ensures a.y == b.y
  {
    hide IsLeap, DayFromYear, DaysBefore, DayNumber, ValidDate;
    YearBounds(a);
    YearBounds(b);
    if a.y < b.y { YearsGrow(a.y + 1, b.y); }
    if b.y < a.y { YearsGrow(b.y + 1, a.y); }
  }

  /** Dates that share a day number are the same date. */
  lemma DayNumberInjective(a: Date, b: Date)
    requires ValidDate(a) && ValidDate(b) && DayNumber(a) == DayNumber(b)
    ensures a == b
  {
    hide IsLeap, DayFromYear, DaysBefore;
    SameYear(a, b);
    YearBounds(a);
    YearBounds(b);
    var leap := IsLeap(a.y);
    MonthLength(a.m, leap);
    MonthLength(b.m, leap);
    if a.m < b.m { MonthsGrow(a.m, b.m - 1, leap); }
    if b.m < a.m { MonthsGrow(b.m, a.m - 1, leap); }
  }

  lemma DateOfDayNumber(a: Date)
    requires ValidDate(a)
    ensures DateOf(DayNumber(a)) == a
  {
    DateOfIsValid(DayNumber(a));
    DayNumberInjective(DateOf(DayNumber(a)), a);
  }

  /** Stepping back one day on the calendar lowers the day number by one. */
  lemma PredecessorLowersByOne(a: Date)
    requires ValidDate(a)
    ensures ValidDate(Predecessor(a)) && DayNumber(Predecessor(a)) == DayNumber(a) - 1
  {
    hide IsLeap, DayFromYear;
    YearBounds(a);
    if a.d == 1 && a.m > 1 {
      MonthLength(a.m - 1, IsLeap(a.y));
    } else if a.d == 1 {
      YearLength(a.y - 1);
    }
    YearBounds(Predecessor(a));
  }

  // ---------------------------------------------------------------- date strings

  predicate IsDigit(c: char) {
    '0' <= c <= '9'
  }

  function Digit(c: char): int
    requires IsDigit(c)
  {
    c as int - '0' as int
  }

  function DigitChar(n: int): (c: char)
    requires 0 <= n <= 9
    ensures IsDigit(c) && Digit(c) == n
  {
    (n + '0' as int) as char
  }

  /** Two and four digits, zero-padded. */
  function Pad2(n: int): string
    requires 0 <= n <= 99
  {
    [DigitChar(n / 10), DigitChar(n % 10)]
  }

  function Pad4(n: int): string
    requires 0 <= n <= 9999
  {
    Pad2(n / 100) + Pad2(n % 100)
  }

  predicate Shape(s: string) {
    |s| == 10 && s[4] == '-' && s[7] == '-'
    && (forall i :: 0 <= i < 10 && i != 4 && i != 7 ==> IsDigit(s[i]))
  }

  /** `dateStr.split('-').map(Number)`. */
  function Parse(s: string): Date
    requires Shape(s)
  {
    Date(1000 * Digit(s[0]) + 100 * Digit(s[1]) + 10 * Digit(s[2]) + Digit(s[3]),
         10 * Digit(s[5]) + Digit(s[6]),
         10 * Digit(s[8]) + Digit(s[9]))
  }

  /** `toISOString().slice(0, 10)` for a year of four digits. */
  function Format(date: Date): string
    requires 0 <= date.y <= 9999 && 0 <= date.m <= 99 && 0 <= date.d <= 99
  {
    Pad4(date.y) + "-" + Pad2(date.m) + "-" + Pad2(date.d)
  }

  /** A full-date string of RFC 3339, section 5.6. */
  predicate FullDate(s: string) {
    Shape(s) && ValidDate(Parse(s))
  }

  lemma ParseFormat(date: Date)
    requires 0 <= date.y <= 9999 && 0 <= date.m <= 99 && 0 <= date.d <= 99
    ensures Shape(Format(date)) && Parse(Format(date)) == date
  {
    var s := Format(date);
    assert s == [DigitChar(date.y / 100 / 10), DigitChar(date.y / 100 % 10), DigitChar(date.y % 100 / 10), DigitChar(date.y % 100 % 10), '-',
                 DigitChar(date.m / 10), DigitChar(date.m % 10), '-', DigitChar(date.d / 10), DigitChar(date.d % 10)];
  }

  lemma ParseInjective(s: string, t: string)
    requires Shape(s) && Shape(t) && Parse(s) == Parse(t)
    ensures s == t
  {
    assert forall i :: 0 <= i < 10 && i != 4 && i != 7 ==> Digit(s[i]) == Digit(t[i]) by { DigitsAgree(s, t); }
    assert forall i :: 0 <= i < 10 ==> s[i] == t[i];
  }

  lemma DigitsAgree(s: string, t: string)
    requires Shape(s) && Shape(t) && Parse(s) == Parse(t)
    ensures forall i :: 0 <= i < 10 && i != 4 && i != 7 ==> Digit(s[i]) == Digit(t[i])
  {
    FourDigits(Digit(s[0]), Digit(s[1]), Digit(s[2]), Digit(s[3]), Digit(t[0]), Digit(t[1]), Digit(t[2]), Digit(t[3]));
  }

  lemma FourDigits(a: int, b: int, c: int, d: int, e: int, f: int, g: int, h: int)
    requires 0 <= a <= 9 && 0 <= b <= 9 && 0 <= c <= 9 && 0 <= d <= 9
    requires 0 <= e <= 9 && 0 <= f <= 9 && 0 <= g <= 9 && 0 <= h <= 9
    requires 1000 * a + 100 * b + 10 * c + d == 1000 * e + 100 * f + 10 * g + h
    ensures a == e && b == f && c == g && d == h
  {
  }

  // ---------------------------------------------------------------- subtractDay

  /** `Date.UTC` reads a year of 0..99 as 1900..1999. */
  function UtcYear(y: int): int {
    if 0 <= y <= 99 then 1900 + y else y
  }

  /** `setUTCDate(getUTCDate() - 1)` on a UTC midnight. */
  function BackOneDay(n: int): int {
    var fields := DateOf(n);
    MakeDay(fields.y, fields.m - 1, fields.d - 1)
  }

  function SubtractDayFields(date: Date): Date {
    DateOf(BackOneDay(MakeDay(UtcYear(date.y), date.m - 1, date.d)))
  }

  lemma BackOneDayLowersByOne(n: int)
    ensures BackOneDay(n) == n - 1
  {
    hide IsLeap, DayFromYear, DaysBefore;
    DateOfIsValid(n);
    var f := DateOf(n);
    MakeDayInRange(f.y, f.m - 1, f.d);
    MakeDayInRange(f.y, f.m - 1, f.d - 1);
  }

  /** From year 100 on, the fields computed through `Date` are the calendar predecessor. */
  lemma LateYears(date: Date)
    requires ValidDate(date) && 100 <= date.y
    ensures SubtractDayFields(date) == Predecessor(date)
  {
    BackOneDayLowersByOne(DayNumber(date));
    PredecessorLowersByOne(date);
    DateOfDayNumber(Predecessor(date));
  }

  /** A day number between two new years' days belongs to a year between them. */
  lemma YearBetween(a: Date, lo: int, hi: int)
    requires ValidDate(a) && DayFromYear(lo) <= DayNumber(a) < DayFromYear(hi + 1)
    ensures lo <= a.y <= hi
  {
    hide IsLeap, DayFromYear, DaysBefore;
    YearBounds(a);
    if a.y < lo { YearsGrow(a.y + 1, lo); }
    if a.y > hi { YearsGrow(hi + 1, a.y); }
  }

  /** A two-digit year lands in the twentieth century, so its predecessor is no earlier than 1899. */
  lemma TwoDigitYears(date: Date)
    requires ValidDate(date) && 0 <= date.y <= 99
    ensures ValidDate(SubtractDayFields(date)) && 1899 <= SubtractDayFields(date).y <= 2000
  {
    hide IsLeap, DayFromYear, DaysBefore, MakeDay, DateOf, BackOneDay, DaysInMonth;
    var y := date.y + 1900;
    var n := MakeDay(y, date.m - 1, date.d);
    MakeDayInRange(y, date.m - 1, date.d);
    MonthsGrow(0, date.m - 1, IsLeap(y));
    MonthsGrow(date.m - 1, 11, IsLeap(y));
    assert 0 == DaysBefore(0, IsLeap(y)) && DaysBefore(11, IsLeap(y)) <= 335 by { YearEnds(IsLeap(y)); }
    YearsGrow(1900, y);
    YearsGrow(y, 1999);
    assert date.d <= 31 by { MonthsAreShort(date.y, date.m); }
    CenturyEdges();
    BackOneDayLowersByOne(n);
    DateOfIsValid(n - 1);
    YearBetween(DateOf(n - 1), 1899, 2000);
  }

  lemma MonthsAreShort(y: int, m: int)
    ensures DaysInMonth(y, m) <= 31
  {
  }

  lemma YearEnds(leap: bool)
    ensures DaysBefore(0, leap) == 0 && DaysBefore(11, leap) <= 335
  {
  }

  lemma CenturyEdges()
    ensures DayFromYear(1899) < DayFromYear(1900)
    ensures DayFromYear(1999) + 366 <= DayFromYear(2001)
  {
  }

  /** The result is a valid date whose year still has four digits, so formatting it loses nothing. */
  lemma SubtractDayYear(date: Date)
    requires ValidDate(date) && 0 <= date.y <= 9999
    ensures ValidDate(SubtractDayFields(date))
    ensures date.y >= 100 ==> SubtractDayFields(date) == Predecessor(date)
    ensures date.y < 100 ==> SubtractDayFields(date).y >= 1899
    ensures 0 <= SubtractDayFields(date).y <= 9999
  {
    if date.y >= 100 {
      LateYears(date);
      PredecessorLowersByOne(date);
    } else {
      TwoDigitYears(date);
    }
  }

  /** The calendar day before `s`, computed at UTC midnight. */
  function SubtractDay(s: string): string
    requires FullDate(s)
  {
    SubtractDayYear(Parse(s));
    Format(SubtractDayFields(Parse(s)))
  }

  lemma SubtractDayFormatted(s: string)
    requires FullDate(s)
    ensures FullDate(SubtractDay(s)) && Parse(SubtractDay(s)) == SubtractDayFields(Parse(s))
  {
    SubtractDayYear(Parse(s));
    ParseFormat(SubtractDayFields(Parse(s)));
  }

  /** The day number of a date string. */
  function Day(s: string): int
    requires FullDate(s)
  {
    DayNumber(Parse(s))
  }

  lemma DayInjective(s: string, t: string)
    requires FullDate(s) && FullDate(t) && Day(s) == Day(t)
    ensures s == t
  {
    DayNumberInjective(Parse(s), Parse(t));
    ParseInjective(s, t);
  }

  /**
   `subtractDay` yields a full date for every full date, and it is the Gregorian day before,
   one day number lower, exactly for the years `Date.UTC` does not re-read: 100 and later.
   */
  lemma SubtractDayIsPredecessorExactlyFromYear100(s: string)
    requires FullDate(s)
    ensures FullDate(SubtractDay(s))
    ensures Day(SubtractDay(s)) == Day(s) - 1 <==> Parse(s).y >= 100
    ensures Parse(SubtractDay(s)) == Predecessor(Parse(s)) <==> Parse(s).y >= 100
  {
    var date := Parse(s);
    SubtractDayFormatted(s);
    SubtractDayYear(date);
    PredecessorLowersByOne(date);
    if date.y < 100 {
      YearBounds(date);
      YearBounds(SubtractDayFields(date));
      YearsGrow(date.y + 1, SubtractDayFields(date).y);
    }
  }

  lemma SubtractDayInjective(s: string, t: string)
    requires FullDate(s) && FullDate(t) && Parse(s).y >= 100 && Parse(t).y >= 100
    requires SubtractDay(s) == SubtractDay(t)
    ensures s == t
  {
    SubtractDayIsPredecessorExactlyFromYear100(s);
    SubtractDayIsPredecessorExactlyFromYear100(t);
    DayInjective(s, t);
  }
}
