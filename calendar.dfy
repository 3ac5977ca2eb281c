/** The proleptic Gregorian calendar of Python's `datetime`, and the
    `"%b-%y"` month labels ("Mar-25") every pipeline keys its data by. */
module Calendar {
  import opened Wrappers
  import opened Strings

  const MonthAbbrevs: seq<string> :=
    ["Jan", "Feb", "Mar", "Apr", "May", "Jun", "Jul", "Aug", "Sep", "Oct", "Nov", "Dec"]

  const MonthNames: seq<string> :=
    ["January", "February", "March", "April", "May", "June", "July",
     "August", "September", "October", "November", "December"]

  predicate IsLeap(y: int) {
    y % 4 == 0 && (y % 100 != 0 || y % 400 == 0)
  }

  /** `calendar.monthrange(y, m)[1]`. */
  function DaysInMonth(y: int, m: int): (d: int)
    requires 1 <= m <= 12
    ensures 28 <= d <= 31
  {
    if m == 2 then (if IsLeap(y) then 29 else 28)
    else if m == 4 || m == 6 || m == 9 || m == 11 then 30
    else 31
  }

  predicate ValidDate(y: int, m: int, d: int) {
    1 <= m <= 12 && 1 <= d <= DaysInMonth(y, m)
  }

  /** Days of year `y` before the first of month `m` (`m == 13` gives the
      length of the year). */
  function DaysBeforeMonth(y: int, m: int): (r: int)
    requires 1 <= m <= 13
    ensures m > 1 ==> r == DaysBeforeMonth(y, m - 1) + DaysInMonth(y, m - 1)
  {
    [0, 31, 59, 90, 120, 151, 181, 212, 243, 273, 304, 334, 365][m - 1]
      + (if m > 2 && IsLeap(y) then 1 else 0)
  }

  /** Days before January 1 of year `y`, counted from January 1 of year 1. */
  function DaysBeforeYear(y: int): int {
    var p := y - 1;
    365 * p + p / 4 - p / 100 + p / 400
  }

  /** `date(y, m, d).toordinal()`: consecutive days get consecutive numbers. */
  function DayNumber(y: int, m: int, d: int): int
    requires 1 <= m <= 12
  {
    DaysBeforeYear(y) + DaysBeforeMonth(y, m) + d
  }

  lemma YearLength(y: int)
    ensures DaysBeforeYear(y + 1) == DaysBeforeYear(y) + DaysBeforeMonth(y, 13)
  {
    var p := y - 1;
    assert y / 4 - p / 4 == if y % 4 == 0 then 1 else 0;
    assert y / 100 - p / 100 == if y % 100 == 0 then 1 else 0;
    assert y / 400 - p / 400 == if y % 400 == 0 then 1 else 0;
    assert y % 400 == 0 ==> y % 100 == 0 && y % 4 == 0;
    assert y % 100 == 0 ==> y % 4 == 0;
  }

  /** The day before the first of the next month is the last day of the
      month, across the year boundary too. */
  lemma DayBeforeNextMonth(y: int, m: int)
    requires 1 <= m <= 12
    ensures m < 12 ==> DayNumber(y, m + 1, 1) - 1 == DayNumber(y, m, DaysInMonth(y, m))
    ensures m == 12 ==> DayNumber(y + 1, 1, 1) - 1 == DayNumber(y, m, DaysInMonth(y, m))
  {
    if m == 12 {
      YearLength(y);
    }
  }

  // ---------------------------------------------------------------- labels

  /** `int(y) % 100` formatted as two digits, as `%y` does. */
  function TwoDigitYear(y: int): string {
    PadZeros(NatText(y % 100), 2)
  }

  /** `date(y, m, 1).strftime("%b-%y")`. */
  function MonthLabel(y: int, m: int): string
    requires 1 <= m <= 12
  {
    MonthAbbrevs[m - 1] + "-" + TwoDigitYear(y)
  }

  /** Number of the month whose abbreviation is `a`, letters compared
      case-blind. */
  function MonthOfAbbrev(a: string): (r: Option<int>)
    ensures r.Some? ==> 1 <= r.value <= 12
  {
    if |a| != 3 then None
    else
      var l := [LowerChar(a[0]), LowerChar(a[1]), LowerChar(a[2])];
      if l == "jan" then Some(1) else if l == "feb" then Some(2) else if l == "mar" then Some(3)
      else if l == "apr" then Some(4) else if l == "may" then Some(5) else if l == "jun" then Some(6)
      else if l == "jul" then Some(7) else if l == "aug" then Some(8) else if l == "sep" then Some(9)
      else if l == "oct" then Some(10) else if l == "nov" then Some(11) else if l == "dec" then Some(12)
      else None
  }

  /** `datetime.strptime(s, "%b-%y")` as (year, month): three letters naming
      a month in any case, a dash and two digits; 00-68 are read as 2000-2068
      and 69-99 as 1969-1999.  `None` is the ValueError. */
  function ParseMonthLabel(s: string): (r: Option<(int, int)>)
    ensures r.Some? ==> 1969 <= r.value.0 <= 2068 && 1 <= r.value.1 <= 12
  {
    if |s| == 6 && s[3] == '-' && IsDigit(s[4]) && IsDigit(s[5]) then
      match MonthOfAbbrev(s[..3])
      case Some(m) =>
        var yy := DigitValue(s[4]) * 10 + DigitValue(s[5]);
        Some((if yy < 69 then 2000 + yy else 1900 + yy, m))
      case None => None
    else None
  }

  /** Labels written by `strftime` read back as the month they name, for the
      century `%y` covers. */
  lemma MonthLabelRoundTrip(y: int, m: int)
    requires 1 <= m <= 12 && 1969 <= y <= 2068
    ensures ParseMonthLabel(MonthLabel(y, m)) == Some((y, m))
  {
    var s := MonthLabel(y, m);
    var yy := y % 100;
    TwoDigits(yy);
    var t := TwoDigitYear(y);
    assert s == MonthAbbrevs[m - 1] + "-" + t;
    assert s[..3] == MonthAbbrevs[m - 1];
    assert s[4] == t[0] && s[5] == t[1];
    AbbrevsDistinct(m);
  }

  lemma TwoDigits(v: int)
    requires 0 <= v < 100
    ensures var t := PadZeros(NatText(v), 2);
      |t| == 2 && IsDigit(t[0]) && IsDigit(t[1]) && DigitValue(t[0]) * 10 + DigitValue(t[1]) == v
  {
    var t := PadZeros(NatText(v), 2);
    if v < 10 {
      assert t == "0" + [DigitChar(v)];
    } else {
      assert NatText(v) == NatText(v / 10) + [DigitChar(v % 10)];
      assert t == [DigitChar(v / 10)] + [DigitChar(v % 10)];
    }
  }

  lemma AbbrevsDistinct(m: int)
    requires 1 <= m <= 12
    ensures MonthOfAbbrev(MonthAbbrevs[m - 1]) == Some(m)
  {
    var a := MonthAbbrevs[m - 1];
    var lower := ["jan", "feb", "mar", "apr", "may", "jun", "jul", "aug", "sep", "oct", "nov", "dec"];
    assert [LowerChar(a[0]), LowerChar(a[1]), LowerChar(a[2])] == lower[m - 1];
  }

  /** `date.isoformat()`: "YYYY-MM-DD". */
  function IsoDate(y: nat, m: nat, d: nat): string {
    PadZeros(NatText(y), 4) + "-" + PadZeros(NatText(m), 2) + "-" + PadZeros(NatText(d), 2)
  }
}
