/**
  Calendar dates as day numbers, and the two `strptime` formats the core
  accepts: `%d.%m.%Y` and `%Y-%m-%d`.
 */
module Dates {
  import opened Base
  import opened Text

  datatype Date = Date(year: int, month: int, day: int)

  predicate IsLeap(y: int)
  {
    y % 4 == 0 && (y % 100 != 0 || y % 400 == 0)
  }

  function DaysInMonth(y: int, m: int): (n: int)
    requires 1 <= m <= 12
    ensures 28 <= n <= 31
  {
    if m == 2 then (if IsLeap(y) then 29 else 28)
    else if m == 4 || m == 6 || m == 9 || m == 11 then 30
    else 31
  }

  /** Days in the months of year `y` before month `m`. */
  function DaysBeforeMonth(y: int, m: int): int
    requires 1 <= m <= 12
  {
    if m == 1 then 0 else DaysBeforeMonth(y, m - 1) + DaysInMonth(y, m - 1)
  }

  /** Days in the years before year `y` (proleptic Gregorian, from year 1). */
  function DaysBeforeYear(y: int): int
    requires y >= 1
  {
    var p := y - 1;
    p * 365 + p / 4 - p / 100 + p / 400
  }

  /** What `datetime` accepts: year 1..9999 and a day that exists in that month. */
  predicate ValidDate(d: Date)
  {
    1 <= d.year <= 9999 && 1 <= d.month <= 12 && 1 <= d.day <= DaysInMonth(d.year, d.month)
  }

  /** `date.toordinal()`: 1 January of year 1 is day 1. */
  function Ordinal(d: Date): int
    requires ValidDate(d)
  {
    DaysBeforeYear(d.year) + DaysBeforeMonth(d.year, d.month) + d.day
  }

  /** The calendar day after `d`. */
  function NextDay(d: Date): Date
    requires ValidDate(d)
  {
    if d.day < DaysInMonth(d.year, d.month) then Date(d.year, d.month, d.day + 1)
    else if d.month < 12 then Date(d.year, d.month + 1, 1)
    else Date(d.year + 1, 1, 1)
  }

  lemma DaysInYear(y: int)
    ensures DaysBeforeMonth(y, 12) + 31 == if IsLeap(y) then 366 else 365
  {
    var feb := DaysInMonth(y, 2);
    assert DaysBeforeMonth(y, 2) == 31;
    assert DaysBeforeMonth(y, 3) == 31 + feb;
    assert DaysBeforeMonth(y, 4) == 62 + feb;
    assert DaysBeforeMonth(y, 5) == 92 + feb;
    assert DaysBeforeMonth(y, 6) == 123 + feb;
    assert DaysBeforeMonth(y, 7) == 153 + feb;
    assert DaysBeforeMonth(y, 8) == 184 + feb;
    assert DaysBeforeMonth(y, 9) == 215 + feb;
    assert DaysBeforeMonth(y, 10) == 245 + feb;
    assert DaysBeforeMonth(y, 11) == 276 + feb;
    assert DaysBeforeMonth(y, 12) == 306 + feb;
  }

  lemma DaysBeforeNextYear(y: int)
    requires y >= 1
    ensures DaysBeforeYear(y + 1) == DaysBeforeYear(y) + if IsLeap(y) then 366 else 365
  {
    var p := y - 1;
    assert (p + 1) / 4 == p / 4 + (if y % 4 == 0 then 1 else 0);
    assert (p + 1) / 100 == p / 100 + (if y % 100 == 0 then 1 else 0);
    assert (p + 1) / 400 == p / 400 + (if y % 400 == 0 then 1 else 0);
  }

  /** Day numbers count consecutive days: the next day is one more. */
  lemma OrdinalNextDay(d: Date)
    requires ValidDate(d) && d != Date(9999, 12, 31)
    ensures ValidDate(NextDay(d))
    ensures Ordinal(NextDay(d)) == Ordinal(d) + 1
  {
    if d.day == DaysInMonth(d.year, d.month) && d.month == 12 {
      DaysInYear(d.year);
      DaysBeforeNextYear(d.year);
    }
  }

  // ---------------------------------------------------------------- strptime fields

  function TwoDigits(p: string): int
    requires |p| == 2 && IsDigit(p[0]) && IsDigit(p[1])
  {
    DigitValue(p[0]) * 10 + DigitValue(p[1])
  }

  /** The `%d` directive: `01`..`31`, a single digit `1`..`9`, or a space and a digit. */
  function DayField(p: string): Option<int>
  {
    if |p| == 1 && '1' <= p[0] <= '9' then Some(DigitValue(p[0]))
    else if |p| == 2 && p[0] == ' ' && '1' <= p[1] <= '9' then Some(DigitValue(p[1]))
    else if |p| == 2 && IsDigit(p[0]) && IsDigit(p[1]) && 1 <= TwoDigits(p) <= 31 then Some(TwoDigits(p))
    else None
  }

  /** The `%m` directive: `01`..`12` or a single digit `1`..`9`. */
  function MonthField(p: string): Option<int>
  {
    if |p| == 1 && '1' <= p[0] <= '9' then Some(DigitValue(p[0]))
    else if |p| == 2 && IsDigit(p[0]) && IsDigit(p[1]) && 1 <= TwoDigits(p) <= 12 then Some(TwoDigits(p))
    else None
  }

  /** The `%Y` directive: exactly four digits. */
  function YearField(p: string): Option<int>
  {
    if |p| == 4 && AllDigits(p) then Some(DigitsValue(p)) else None
  }

  function FromFields(y: Option<int>, m: Option<int>, d: Option<int>): Option<int>
  {
    if y.Some? && m.Some? && d.Some? && ValidDate(Date(y.value, m.value, d.value))
    then Some(Ordinal(Date(y.value, m.value, d.value)))
    else None
  }

  /** `datetime.strptime(s, '%d.%m.%Y')` as a day number; `None` where it raises. */
  function ParseDayFirst(s: string): Option<int>
  {
    var parts := Split(s, '.');
    if |parts| != 3 then None
    else FromFields(YearField(parts[2]), MonthField(parts[1]), DayField(parts[0]))
  }

  /** `datetime.strptime(s, '%Y-%m-%d')` as a day number; `None` where it raises. */
  function ParseIso(s: string): Option<int>
  {
    var parts := Split(s, '-');
    if |parts| != 3 then None
    else FromFields(YearField(parts[0]), MonthField(parts[1]), DayField(parts[2]))
  }

  /** The first format, then the second. */
  function ParseDate(s: string): (r: Option<int>)
    ensures r.Some? <==> ParseDayFirst(s).Some? || ParseIso(s).Some?
    ensures ParseDayFirst(s).Some? ==> r == ParseDayFirst(s)
  {
    if ParseDayFirst(s).Some? then ParseDayFirst(s) else ParseIso(s)
  }

  // ---------------------------------------------------------------- strftime

  function Pad2(n: int): (s: string)
    requires 0 <= n < 100
    ensures |s| == 2 && IsDigit(s[0]) && IsDigit(s[1]) && TwoDigits(s) == n
  {
    [DigitChar(n / 10), DigitChar(n % 10)]
  }

  function Pad4(n: int): (s: string)
    requires 0 <= n < 10000
    ensures |s| == 4 && AllDigits(s) && DigitsValue(s) == n
  {
    var s := [DigitChar(n / 1000), DigitChar(n / 100 % 10), DigitChar(n / 10 % 10), DigitChar(n % 10)];
    assert s[..3][..2][..1][..0] == [];
    assert s[..3][..2] == s[..2] && s[..2][..1] == s[..1];
    assert DigitsValue(s[..1]) == n / 1000;
    assert DigitsValue(s[..2]) == n / 1000 * 10 + n / 100 % 10 == n / 100;
    assert DigitsValue(s[..3]) == n / 100 * 10 + n / 10 % 10 == n / 10;
    assert DigitsValue(s) == n / 10 * 10 + n % 10 == n;
    s
  }

  /** `strftime('%d.%m.%Y')`. */
  function FormatDayFirst(d: Date): string
    requires ValidDate(d)
  {
    Join([Pad2(d.day), Pad2(d.month), Pad4(d.year)], '.')
  }

  /** `strftime('%Y-%m-%d')`. */
  function FormatIso(d: Date): string
    requires ValidDate(d)
  {
    Join([Pad4(d.year), Pad2(d.month), Pad2(d.day)], '-')
  }

  lemma NoSeparator(s: string, sep: char)
    requires AllDigits(s) && !IsDigit(sep)
    ensures sep !in s
  {
  }

  /** Parsing a formatted date gives back its day number, in both formats. */
  lemma ParseFormatted(d: Date)
    requires ValidDate(d)
    ensures ParseDayFirst(FormatDayFirst(d)) == Some(Ordinal(d))
    ensures ParseIso(FormatIso(d)) == Some(Ordinal(d))
    ensures ParseDate(FormatDayFirst(d)) == Some(Ordinal(d))
  {
    ParseFormattedDayFirst(d);
    ParseFormattedIso(d);
  }

  lemma ParseFormattedDayFirst(d: Date)
    requires ValidDate(d)
    ensures ParseDayFirst(FormatDayFirst(d)) == Some(Ordinal(d))
  {
    var dd, mm, yy := Pad2(d.day), Pad2(d.month), Pad4(d.year);
    NoSeparator(dd, '.');
    NoSeparator(mm, '.');
    NoSeparator(yy, '.');
    SplitJoin([dd, mm, yy], '.');
    assert DayField(dd) == Some(d.day);
    assert MonthField(mm) == Some(d.month);
  }

  lemma ParseFormattedIso(d: Date)
    requires ValidDate(d)
    ensures ParseIso(FormatIso(d)) == Some(Ordinal(d))
  {
    var dd, mm, yy := Pad2(d.day), Pad2(d.month), Pad4(d.year);
    NoSeparator(dd, '-');
    NoSeparator(mm, '-');
    NoSeparator(yy, '-');
    SplitJoin([yy, mm, dd], '-');
    assert DayField(dd) == Some(d.day);
    assert MonthField(mm) == Some(d.month);
  }
}
