/** The report-month arithmetic of the desktop front end: shifting a date by
    whole months, the twelve month labels offered for selection, and the
    first and last day of the month chosen, which become the window the
    unallocated-cost distribution runs over. */
module MonthWindow {
  import opened Wrappers
  import opened Calendar

  datatype Date = Date(year: int, month: int, day: int)

  predicate Valid(d: Date) {
    ValidDate(d.year, d.month, d.day)
  }

  /** Months counted from January of year 0: `year * 12 + (month - 1)`. */
  function MonthIndex(d: Date): int {
    d.year * 12 + d.month - 1
  }

  /** `date.toordinal()`. */
  function Ordinal(d: Date): int
    requires Valid(d)
  {
    DayNumber(d.year, d.month, d.day)
  }

  /** `shift_month(d, delta)`: the first of the month `delta` months away,
      found with floor division and modulo by 12. */
  function ShiftMonth(d: Date, delta: int): (r: Date)
    ensures r.day == 1 && 1 <= r.month <= 12 && Valid(r)
    ensures MonthIndex(r) == MonthIndex(d) + delta
  {
    var k := d.month - 1 + delta;
    Date(d.year + k / 12, k % 12 + 1, 1)
  }

  /** Two dates in the same numbered month have the same year and month. */
  lemma SameMonthIndex(a: Date, b: Date)
    requires 1 <= a.month <= 12 && 1 <= b.month <= 12
    requires MonthIndex(a) == MonthIndex(b)
    ensures a.year == b.year && a.month == b.month
  {
  }

  /** Shifting there and back lands on the first of the original month. */
  lemma ShiftBack(d: Date, k: int)
    requires 1 <= d.month <= 12
    ensures ShiftMonth(ShiftMonth(d, k), -k) == Date(d.year, d.month, 1)
  {
    var r := ShiftMonth(ShiftMonth(d, k), -k);
    SameMonthIndex(r, d);
  }

  /** `d - timedelta(days=1)`. */
  function PrevDay(d: Date): (r: Date)
    requires Valid(d)
    ensures Valid(r)
  {
    if d.day > 1 then Date(d.year, d.month, d.day - 1)
    else if d.month > 1 then Date(d.year, d.month - 1, DaysInMonth(d.year, d.month - 1))
    else Date(d.year - 1, 12, 31)
  }

  /** The day before is one day number less. */
  lemma PrevDayOrdinal(d: Date)
    requires Valid(d)
    ensures Ordinal(PrevDay(d)) == Ordinal(d) - 1
  {
    if d.day == 1 {
      if d.month > 1 {
        DayBeforeNextMonth(d.year, d.month - 1);
      } else {
        DayBeforeNextMonth(d.year - 1, 12);
      }
    }
  }

  /** `prev_end.replace(day=1)` where `prev_end = today.replace(day=1) - 1 day`:
      the first of the month before today's. */
  function PrevStart(today: Date): (r: Date)
    requires Valid(today)
    ensures r.day == 1 && Valid(r)
  {
    var prevEnd := PrevDay(Date(today.year, today.month, 1));
    Date(prevEnd.year, prevEnd.month, 1)
  }

  lemma PrevStartIsPreviousMonth(today: Date)
    requires Valid(today)
    ensures MonthIndex(PrevStart(today)) == MonthIndex(today) - 1
  {
  }

  /** `months`: the first days of the twelve selectable months, the month
      before today's followed by the eleven before it, most recent first. */
  function Months(today: Date): (ms: seq<Date>)
    requires Valid(today)
    ensures |ms| == 12
    ensures forall i :: 0 <= i < 12 ==>
      ms[i].day == 1 && Valid(ms[i]) && MonthIndex(ms[i]) == MonthIndex(today) - 1 - i
  {
    PrevStartIsPreviousMonth(today);
    var p := PrevStart(today);
    seq(12, i => ShiftMonth(p, -i))
  }

  /** `labels`: each month written as `"%b-%y"`. */
  function Labels(today: Date): (ls: seq<string>)
    requires Valid(today)
    ensures |ls| == 12
  {
    var ms := Months(today);
    seq(12, i requires 0 <= i < 12 => MonthLabel(ms[i].year, ms[i].month))
  }

  /** Lines 307-313: the label chosen parsed with `strptime`, its first day,
      and the first of the next month less one day.  `None` is the cancelled
      dialog (an empty choice) or the ValueError of a label that does not
      parse. */
  function ReportWindow(sel: string): (r: Option<(Date, Date)>)
    ensures r.Some? <==> ParseMonthLabel(sel).Some?
    ensures r.Some? ==> Valid(r.value.0) && Valid(r.value.1)
  {
    match ParseMonthLabel(sel)
    case None => None
    case Some(ym) =>
      var start := Date(ym.0, ym.1, 1);
      var next := ShiftMonth(start, 1);
      Some((start, PrevDay(next)))
  }

  /** The window runs from the first to the last day of the selected month,
      `DaysInMonth` days in all. */
  lemma ReportWindowBounds(sel: string)
    requires ReportWindow(sel).Some?
    ensures var (start, end) := ReportWindow(sel).value;
      && start.day == 1
      && end == Date(start.year, start.month, DaysInMonth(start.year, start.month))
      && Ordinal(start) <= Ordinal(end)
      && Ordinal(end) - Ordinal(start) + 1 == DaysInMonth(start.year, start.month)
  {
    var (start, end) := ReportWindow(sel).value;
    var next := ShiftMonth(start, 1);
    if start.month < 12 {
      SameMonthIndex(next, Date(start.year, start.month + 1, 1));
    } else {
      SameMonthIndex(next, Date(start.year + 1, 1, 1));
    }
    PrevDayOrdinal(next);
  }

  /** Every label offered parses back to the month it was made from, so the
      window is that month. */
  lemma LabelsSelectTheirMonth(today: Date, i: int)
    requires Valid(today) && 0 <= i < 12
    requires 1970 <= today.year <= 2068
    ensures ReportWindow(Labels(today)[i]).Some?
    ensures ReportWindow(Labels(today)[i]).value.0 == Months(today)[i]
  {
    var m := Months(today)[i];
    assert today.year - 1 <= m.year <= today.year;
    MonthLabelRoundTrip(m.year, m.month);
  }
}
