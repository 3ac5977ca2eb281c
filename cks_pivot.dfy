/** Pivoting the finance workbook's "NIS Details by Basin" sheets into rows
    of the "CK data Pivot" reference sheet: the month column is found in
    row 3, each basin's block is searched in column F for every data field,
    and the rows are appended under what the reference sheet already holds. */
module CksPivot {
  import opened Wrappers
  import opened Strings
  import opened Calendar
  import opened Cells
  import opened Sheets
  import opened Seqs

  /** Lines 47-52 and 176-177: destination basin codes and the column-A
      labels they are read from, position by position. */
  const DestUs: seq<string> := ["BK", "DJ", "PR", "SJ", "OT", "AP", "PM", "EF", "HV", "MC", "Corp", "UN"]
  const SrcUs: seq<string> := [
    "Williston", "DJ", "Powder", "San Juan", "Other", "Marcellus Utica", "Permian", "Eagleford",
    "Haynesville", "Midcon", "Corporate", "Unita"]
  const DestCa: seq<string> := ["CA"]
  const SrcCa: seq<string> := ["CAL"]
  const DestAu: seq<string> := ["AU"]
  const SrcAu: seq<string> := ["AU"]

  /** Lines 55-74: the data fields, in column order. */
  const DataFields: seq<string> := [
    "Service Revenue", "Proppant Revenue", "Proppant Handling Revenue", "Chemical Revenue",
    "Fuel Revenue", "Total Revenue", "Proppant Costs", "Proppant Logistic Cost",
    "Chemical and Gel", "Mat and Containment Costs", "Fuel Costs", "Other Pad Costs",
    "Allocation - VM", "Total Variable Cost", "Variable Margin", "Variable Margin %",
    "RM - Parts and Services", "RM - Fluid End/Pumps", "RM - IRON", "RM - Startup",
    "RM - Interbasin Reclass", "RM - Mining Adjustment", "RM - Allocation",
    "RM - Manual Allocation", "R&M & Reclass (Net)", "Personnel - Salaries and Benefit",
    "Personnel - Contractors", "Personnel - Overtime", "Personnel - Job Bonus",
    "Personnel - Quarterly Bonus", "Personnel - Stock Comp", "Personnel - Mancamp",
    "Personnel - Other", "Personnel - Startup", "Personnel - Interbasin Reclass",
    "Personnel - Mining Adjustment", "Personnel - Allocation", "Personnel Cost & Reclass (Net)",
    "District - Equipment Rental", "District - Sand Box Rental", "District - Property Tax",
    "District - Other District Cost", "District - Interbasin Reclass & Startup",
    "District - Mining Adjustment", "District - Allocation", "District Costs & Reclass (Net)",
    "Cost of Sales", "Gross Margin", "Gross Margin %", "G&A - Stock Comp", "G&A - Personnel",
    "G&A - Non-Stock Comp and Personnel", "G&A - Allocation", "G&A - Manual Allocation",
    "Total G&A", "Corporate - Manual Allocation", "EBITDA", "EBITDA%", "DD&A", "Interest & Fees",
    "Non Recurring", "Startup Expense", "Mining Adjustment - DD&A", "Corporate Allocation",
    "Corporate Allocation-Manual DD&A", "IBT", "IBT%", "Staffed Fleet",
    "Utilized Fleet (Standard Days Home Crew)", "Stages", "Pump Days",
    "Standard Days (Work Basin)", "Standard Days (Home Crew)", "Pump Hrs", "HHP Hr (K)",
    "Proppant Pumped", "Proppant Sold", "Proppant Hauled", "Headcount (Employees)",
    "Headcount (Contractors)", "Total Headcount", "Calandar Day"]

  /** Lines 77-79: other spellings a field's row label may have. */
  function Aliases(field: string): seq<string> {
    if field == "District - Other District Cost" then ["Other District Cost"] else []
  }

  /** Line 142: the field itself, then its aliases. */
  function Variants(field: string): (vs: seq<string>)
    ensures |vs| >= 1 && vs[0] == field
  {
    [field] + Aliases(field)
  }

  /** Line 113: the header row. */
  const Headers: seq<string> := ["Basin", "Date", "Year", "Month", "Q", "M-Y", "Q-Y"] + DataFields

  const PivotTitle: string := "CK data Pivot"

  // ---------------------------------------------------------------- month column

  /** What a row-3 cell reads as: a date as its `"%b-%y"` label, text
      stripped; other values are skipped. */
  function MonthHeading(c: Cell): (r: Option<string>)
    ensures c.Text? ==> r == Some(Strip(c.s))
    ensures !c.Text? && !c.Stamp? ==> r.None?
  {
    match c
    case Stamp(y, m, _) => if 1 <= m <= 12 then Some(MonthLabel(y, m)) else None
    case Text(s) => Some(Strip(s))
    case _ => None
  }

  predicate HeadsMonth(g: Grid, target: string, c: int) {
    MonthHeading(At(g, 3, c)) == Some(target)
  }

  /** The left-most column from `c` on whose row-3 heading is `target`. */
  function MonthColFrom(g: Grid, target: string, c: nat): (r: Option<nat>)
    requires c >= 1
    ensures r.Some? ==> c <= r.value <= MaxCol(g) && HeadsMonth(g, target, r.value)
    ensures r.Some? ==> forall k :: c <= k < r.value ==> !HeadsMonth(g, target, k)
    ensures r.None? ==> forall k :: c <= k ==> !HeadsMonth(g, target, k)
    decreases MaxCol(g) + 1 - c
  {
    if c > MaxCol(g) then None
    else if HeadsMonth(g, target, c) then Some(c)
    else MonthColFrom(g, target, c + 1)
  }

  /** Lines 82-93 `find_month_col`: the first column of `1 .. max_column`
      whose heading matches, `None` when there is none. */
  method FindMonthCol(g: Grid, target: string) returns (col: Option<nat>)
    ensures col == MonthColFrom(g, target, 1)
  {
    var last := MaxCol(g);
    var c := 1;
    while c <= last
      invariant 1 <= c <= last + 1
      invariant MonthColFrom(g, target, c) == MonthColFrom(g, target, 1)
    {
      var cand := MonthHeading(At(g, 3, c));
      if cand == Some(target) {
        return Some(c);
      }
      c := c + 1;
    }
    return None;
  }

  // ---------------------------------------------------------------- period columns

  /** Line 108: the quarter of month `m`. */
  function Quarter(m: int): (q: int)
    requires 1 <= m <= 12
    ensures 1 <= q <= 4 && 3 * q - 2 <= m <= 3 * q
  {
    (m - 1) / 3 + 1
  }

  /** `str(year)[-2:]`. */
  function YearSuffix(y: nat): (r: string)
    ensures |r| <= 2
  {
    var t := NatText(y);
    if |t| >= 2 then t[|t| - 2..] else t
  }

  /** The seven leading columns of every row of the month. */
  datatype Period = Period(iso: string, year: int, monthName: string, quarter: int, my: string, qy: string)

  /** Lines 102-110: the label parsed with `strptime`, the month's last day
      as an ISO date, the month's full name, the quarter, the label itself
      and `"Q{q}-{yy}"`.  `None` is the ValueError of a label that does not
      parse. */
  function PeriodOf(target: string): (r: Option<Period>)
    ensures r.Some? <==> ParseMonthLabel(target).Some?
    ensures r.Some? ==> 1 <= r.value.quarter <= 4 && r.value.my == target
  {
    match ParseMonthLabel(target)
    case None => None
    case Some(ym) =>
      var (y, m) := ym;
      var q := Quarter(m);
      Some(Period(IsoDate(y, m, DaysInMonth(y, m)), y, MonthNames[m - 1], q, target,
                  "Q" + [DigitChar(q)] + "-" + YearSuffix(y)))
  }

  /** The report date is the last day of the month: a valid date whose next
      day is not. */
  lemma ReportDateIsLastDay(y: int, m: int)
    requires 1 <= m <= 12
    ensures ValidDate(y, m, DaysInMonth(y, m)) && !ValidDate(y, m, DaysInMonth(y, m) + 1)
  {
  }

  /** The year digits of Q-Y are those of the M-Y label the month was
      parsed from. */
  lemma QuarterYearMatchesLabel(target: string)
    requires ParseMonthLabel(target).Some?
    ensures YearSuffix(ParseMonthLabel(target).value.0) == target[4..6]
  {
    var y := ParseMonthLabel(target).value.0;
    var yy := DigitValue(target[4]) * 10 + DigitValue(target[5]);
    assert y % 100 == yy;
    var t, u := NatText(y), NatText(y / 10);
    var a, b := DigitChar((y / 10) % 10), DigitChar(y % 10);
    assert t == u + [b];
    assert u == NatText(y / 100) + [a];
    assert t[|t| - 2..] == [a, b];
  }

  // ---------------------------------------------------------------- basin rows

  /** The first row from `r` on whose column-A label (`str(v or "").strip()`)
      is `src`. */
  function BasinRowFrom(g: Grid, src: string, r: nat): (b: Option<nat>)
    requires r >= 1
    ensures b.Some? ==> r <= b.value <= MaxRow(g) && LabelOf(At(g, b.value, 1)) == Some(src)
    ensures b.Some? ==> forall k :: r <= k < b.value ==> LabelOf(At(g, k, 1)) != Some(src)
    ensures b.None? ==> forall k :: r <= k <= MaxRow(g) ==> LabelOf(At(g, k, 1)) != Some(src)
    decreases MaxRow(g) + 1 - r
  {
    if r > MaxRow(g) then None
    else if LabelOf(At(g, r, 1)) == Some(src) then Some(r)
    else BasinRowFrom(g, src, r + 1)
  }

  /** Lines 121-125: the `next(...)` over rows `1 .. max_row`. */
  method FindBasinRow(g: Grid, src: string) returns (b: Option<nat>)
    ensures b == BasinRowFrom(g, src, 1)
  {
    var last := MaxRow(g);
    var r := 1;
    while r <= last
      invariant 1 <= r <= last + 1
      invariant BasinRowFrom(g, src, r) == BasinRowFrom(g, src, 1)
    {
      if LabelOf(At(g, r, 1)) == Some(src) {
        return Some(r);
      }
      r := r + 1;
    }
    return None;
  }

  // ---------------------------------------------------------------- field search

  /** Row `r` opens the block of another source basin of the sheet. */
  predicate Stops(g: Grid, r: int, srcs: seq<string>, src: string) {
    var a := At(g, r, 1);
    Truthy(a) && LabelOf(a).Some? && LabelOf(a).value in srcs && LabelOf(a).value != src
  }

  /** Column F of row `r`, stripped, is one of `variants`. */
  predicate Hit(g: Grid, r: int, variants: seq<string>) {
    var f := LabelOf(At(g, r, 6));
    f.Some? && f.value in variants
  }

  const NotFound: Cell := Text("N/A")

  /** The value the search for a field finds from row `r` of the block that
      starts at `basinRow`. */
  function ScanFrom(g: Grid, basinRow: int, r: int, srcs: seq<string>, src: string,
                    variants: seq<string>, col: int): Cell
    decreases MaxRow(g) + 1 - r
  {
    if r > MaxRow(g) then NotFound
    else if r > basinRow && Stops(g, r, srcs, src) then NotFound
    else if Hit(g, r, variants) then At(g, r, col)
    else ScanFrom(g, basinRow, r + 1, srcs, src, variants, col)
  }

  /** The first row naming the field, with no other basin's block opening
      on the way, gives the value. */
  lemma {:induction false} ScanHit(g: Grid, basinRow: int, r: int, h: int, srcs: seq<string>, src: string,
                                   variants: seq<string>, col: int)
    requires r <= h <= MaxRow(g) && Hit(g, h, variants)
    requires forall k :: r <= k < h ==> !Hit(g, k, variants)
    requires forall k :: r <= k <= h && k > basinRow ==> !Stops(g, k, srcs, src)
    ensures ScanFrom(g, basinRow, r, srcs, src, variants, col) == At(g, h, col)
    decreases h - r
  {
    ScanStep(g, basinRow, r, srcs, src, variants, col);
    if r < h {
      assert !Hit(g, r, variants);
      assert r > basinRow ==> !Stops(g, r, srcs, src);
      ScanHit(g, basinRow, r + 1, h, srcs, src, variants, col);
    }
  }

  /** No row naming the field before the search ends at row `e` (the next
      basin's block, or past the last row) gives "N/A". */
  lemma {:induction false} ScanMiss(g: Grid, basinRow: int, r: int, e: int, srcs: seq<string>, src: string,
                                    variants: seq<string>, col: int)
    requires r <= e && (e > MaxRow(g) || (e > basinRow && Stops(g, e, srcs, src)))
    requires forall k :: r <= k < e ==> !Hit(g, k, variants)
    ensures ScanFrom(g, basinRow, r, srcs, src, variants, col) == NotFound
    decreases e - r
  {
    if r < e && r <= MaxRow(g) {
      ScanMiss(g, basinRow, r + 1, e, srcs, src, variants, col);
    }
  }

  /** Lines 141-150: rows from the basin row down, stopping at another
      basin's row; the month-column value of the first row whose column F
      names the field, "N/A" when none does. */
  method FieldValue(g: Grid, basinRow: int, srcs: seq<string>, src: string, variants: seq<string>, col: int)
    returns (v: Cell)
    ensures v == ScanFrom(g, basinRow, basinRow, srcs, src, variants, col)
  {
    v := NotFound;
    var last := MaxRow(g);
    var r := basinRow;
    ghost var want := ScanFrom(g, basinRow, basinRow, srcs, src, variants, col);
    while r <= last
      invariant ScanFrom(g, basinRow, r, srcs, src, variants, col) == want
      invariant v == NotFound
      decreases last + 1 - r
    {
      ScanStep(g, basinRow, r, srcs, src, variants, col);
      if r > basinRow && Stops(g, r, srcs, src) {
        break;
      }
      if Hit(g, r, variants) {
        v := At(g, r, col);
        break;
      }
      r := r + 1;
    }
  }

  lemma ScanStep(g: Grid, basinRow: int, r: int, srcs: seq<string>, src: string, variants: seq<string>, col: int)
    requires r <= MaxRow(g)
    ensures ScanFrom(g, basinRow, r, srcs, src, variants, col) ==
      if r > basinRow && Stops(g, r, srcs, src) then NotFound
      else if Hit(g, r, variants) then At(g, r, col)
      else ScanFrom(g, basinRow, r + 1, srcs, src, variants, col)
  {
  }

  // ---------------------------------------------------------------- pivot rows

  /** Lines 132-137: the period columns, the same on every row of the month. */
  function PeriodCells(p: Period): (r: seq<Cell>)
    ensures |r| == 6
  {
    [Text(p.iso), Int(p.year), Text(p.monthName), Int(p.quarter), Text(p.my), Text(p.qy)]
  }

  /** The values found for `fields`, in order. */
  function FieldValues(g: Grid, basinRow: int, srcs: seq<string>, src: string, fields: seq<string>, col: int)
    : (vs: seq<Cell>)
    ensures |vs| == |fields|
  {
    if fields == [] then []
    else
      var n := |fields| - 1;
      FieldValues(g, basinRow, srcs, src, fields[..n], col)
        + [ScanFrom(g, basinRow, basinRow, srcs, src, Variants(fields[n]), col)]
  }

  /** Value `j` of a row is what the search for field `j` found. */
  lemma {:induction false} FieldValuesAt(g: Grid, basinRow: int, srcs: seq<string>, src: string,
                                         fields: seq<string>, col: int, j: int)
    requires 0 <= j < |fields|
    ensures FieldValues(g, basinRow, srcs, src, fields, col)[j]
      == ScanFrom(g, basinRow, basinRow, srcs, src, Variants(fields[j]), col)
  {
    var n := |fields| - 1;
    var init := fields[..n];
    var vs := FieldValues(g, basinRow, srcs, src, init, col);
    var last := ScanFrom(g, basinRow, basinRow, srcs, src, Variants(fields[n]), col);
    assert FieldValues(g, basinRow, srcs, src, fields, col) == vs + [last];
    if j < n {
      FieldValuesAt(g, basinRow, srcs, src, init, col, j);
      assert init[j] == fields[j];
    }
  }

  /** Lines 130-151: one basin's row. */
  function BasinRowData(g: Grid, dest: string, basinRow: int, srcs: seq<string>, src: string,
                        fields: seq<string>, col: int, p: Period): seq<Cell>
  {
    [Text(dest)] + PeriodCells(p) + FieldValues(g, basinRow, srcs, src, fields, col)
  }

  lemma FieldValuesStep(g: Grid, basinRow: int, srcs: seq<string>, src: string, fields: seq<string>, col: int, j: int)
    requires 0 <= j < |fields|
    ensures FieldValues(g, basinRow, srcs, src, fields[..j + 1], col)
      == FieldValues(g, basinRow, srcs, src, fields[..j], col) + [ScanFrom(g, basinRow, basinRow, srcs, src, Variants(fields[j]), col)]
  {
    TakeTake(fields, j, j + 1);
  }

  /** Lines 130-153 for one basin found at `basinRow`. */
  method BuildRow(g: Grid, dest: string, basinRow: int, srcs: seq<string>, src: string,
                  fields: seq<string>, col: int, p: Period) returns (row: seq<Cell>)
    ensures row == BasinRowData(g, dest, basinRow, srcs, src, fields, col, p)
  {
    var lead := [Text(dest)] + PeriodCells(p);
    row := lead;
    var j := 0;
    assert fields[..0] == [];
    while j < |fields|
      invariant 0 <= j <= |fields|
      invariant row == lead + FieldValues(g, basinRow, srcs, src, fields[..j], col)
    {
      var v := FieldValue(g, basinRow, srcs, src, Variants(fields[j]), col);
      FieldValuesStep(g, basinRow, srcs, src, fields, col, j);
      ConcatAssoc(lead, FieldValues(g, basinRow, srcs, src, fields[..j], col), [v]);
      row := row + [v];
      j := j + 1;
    }
    TakeAll(fields);
  }

  /** The rows of the basins `dests` whose source label (at the same
      position of `srcs`) has a row in column A, in order; the others are
      skipped. */
  function ExtractRows(g: Grid, dests: seq<string>, srcs: seq<string>, fields: seq<string>, col: int, p: Period)
    : (rows: seq<seq<Cell>>)
    requires |dests| <= |srcs|
    ensures |rows| <= |dests|
    ensures forall k :: 0 <= k < |rows| ==>
      |rows[k]| == 7 + |fields| && rows[k][0].Text? && rows[k][0].s in dests && rows[k][1..7] == PeriodCells(p)
  {
    if dests == [] then []
    else
      var n := |dests| - 1;
      var front := ExtractRows(g, dests[..n], srcs, fields, col, p);
      var more := match BasinRowFrom(g, srcs[n], 1)
        case None => []
        case Some(b) => [BasinRowData(g, dests[n], b, srcs, srcs[n], fields, col, p)];
      assert forall k :: 0 <= k < |front| ==> front[k][0].s in dests by {
        forall k | 0 <= k < |front|
          ensures front[k][0].s in dests
        {
          var d := front[k][0].s;
          var i :| 0 <= i < n && dests[..n][i] == d;
          assert dests[i] == d;
        }
      }
      front + more
  }

  /** Every row has `width` entries, the period columns of `p` among them. */
  predicate Shaped(rows: seq<seq<Cell>>, width: int, p: Period) {
    forall k :: 0 <= k < |rows| ==> 7 <= |rows[k]| == width && rows[k][1..7] == PeriodCells(p)
  }

  lemma ShapedAppend(a: seq<seq<Cell>>, b: seq<seq<Cell>>, width: int, p: Period)
    requires Shaped(a, width, p) && Shaped(b, width, p)
    ensures Shaped(a + b, width, p)
  {
    assert forall k :: 0 <= k < |a + b| ==> (a + b)[k] == if k < |a| then a[k] else b[k - |a|];
  }

  lemma HeadersWidth()
    ensures |Headers| == 7 + |DataFields|
  {
  }

  /** A basin whose source label has no row in column A adds no row. */
  lemma SkippedBasin(g: Grid, dests: seq<string>, d: string, srcs: seq<string>, fields: seq<string>, col: int, p: Period)
    requires |dests| < |srcs| && BasinRowFrom(g, srcs[|dests|], 1).None?
    ensures ExtractRows(g, dests + [d], srcs, fields, col, p) == ExtractRows(g, dests, srcs, fields, col, p)
  {
    assert (dests + [d])[..|dests|] == dests;
  }

  lemma ExtractStep(g: Grid, dests: seq<string>, srcs: seq<string>, fields: seq<string>, col: int, p: Period, i: int)
    requires 0 <= i < |dests| <= |srcs|
    ensures ExtractRows(g, dests[..i + 1], srcs, fields, col, p)
      == ExtractRows(g, dests[..i], srcs, fields, col, p)
        + match BasinRowFrom(g, srcs[i], 1)
          case None => []
          case Some(b) => [BasinRowData(g, dests[i], b, srcs, srcs[i], fields, col, p)]
  {
    TakeTake(dests, i, i + 1);
  }

  /** Lines 116-153 `extract`. */
  method Extract(g: Grid, dests: seq<string>, srcs: seq<string>, fields: seq<string>, col: int, p: Period)
    returns (rows: seq<seq<Cell>>)
    requires |dests| <= |srcs|
    ensures rows == ExtractRows(g, dests, srcs, fields, col, p)
  {
    rows := [];
    var i := 0;
    while i < |dests|
      invariant 0 <= i <= |dests|
      invariant rows == ExtractRows(g, dests[..i], srcs, fields, col, p)
    {
      var src := srcs[i];
      var b := FindBasinRow(g, src);
      ExtractStep(g, dests, srcs, fields, col, p, i);
      if b.Some? {
        var row := BuildRow(g, dests[i], b.value, srcs, src, fields, col, p);
        rows := rows + [row];
      }
      i := i + 1;
    }
    TakeAll(dests);
  }

  // ---------------------------------------------------------------- fill-down

  /** `str(v).strip()`, the value the fill-down carries down; a float's
      text is not modelled, so a float is carried as itself. */
  function Carried(c: Cell): (r: Cell)
    ensures c.Text? ==> r == Text(Strip(c.s))
  {
    match LabelOf(c)
    case Some(t) => Text(t)
    case None => c
  }

  /** What `last` holds when row `i` (0-based) is reached: the carried
      form of the nearest truthy cell above, blank when there is none. */
  function LastAbove(s: seq<Cell>, i: int): Cell
    requires 0 <= i <= |s|
  {
    if i == 0 then Empty
    else if Truthy(s[i - 1]) then Carried(s[i - 1])
    else LastAbove(s, i - 1)
  }

  /** Column A after lines 168-174. */
  function FilledDown(s: seq<Cell>): (r: seq<Cell>)
    ensures |r| == |s|
  {
    seq(|s|, i requires 0 <= i < |s| => if Truthy(s[i]) then s[i] else LastAbove(s, i))
  }

  /** A truthy cell is kept; a blank one receives the stripped value of the
      nearest truthy cell above it. */
  lemma {:induction false} FilledFromNearestAbove(s: seq<Cell>, i: int, j: int)
    requires 0 <= j < i < |s| && Truthy(s[j]) && !Truthy(s[i])
    requires forall k :: j < k < i ==> !Truthy(s[k])
    ensures FilledDown(s)[i] == Carried(s[j])
  {
    LastAboveIs(s, i, j);
  }

  lemma {:induction false} LastAboveIs(s: seq<Cell>, i: int, j: int)
    requires 0 <= j < i <= |s| && Truthy(s[j])
    requires forall k :: j < k < i ==> !Truthy(s[k])
    ensures LastAbove(s, i) == Carried(s[j])
    decreases i
  {
    if i - 1 > j {
      LastAboveIs(s, i - 1, j);
    }
  }

  /** Blank cells with nothing truthy above stay blank. */
  lemma {:induction false} BlankWithNothingAbove(s: seq<Cell>, i: int)
    requires 0 <= i <= |s| && forall k :: 0 <= k < i ==> !Truthy(s[k])
    ensures LastAbove(s, i) == Empty
  {
    if i > 0 {
      BlankWithNothingAbove(s, i - 1);
    }
  }

  lemma TruthyKept(s: seq<Cell>, i: int)
    requires 0 <= i < |s| && Truthy(s[i])
    ensures FilledDown(s)[i] == s[i]
  {
  }

  lemma FillStep(s: seq<Cell>, r: int)
    requires 0 <= r < |s|
    ensures FilledDown(s)[r] == if Truthy(s[r]) then s[r] else LastAbove(s, r)
    ensures LastAbove(s, r + 1) == if Truthy(s[r]) then Carried(s[r]) else LastAbove(s, r)
  {
  }

  /** Lines 168-174, on column A of the AU sheet. */
  method FillDown(a: array<Cell>)
    modifies a
    ensures a[..] == FilledDown(old(a[..]))
  {
    ghost var s := a[..];
    var last: Cell := Empty;
    var r := 0;
    while r < a.Length
      invariant 0 <= r <= a.Length
      invariant last == LastAbove(s, r)
      invariant forall i :: 0 <= i < r ==> a[i] == FilledDown(s)[i]
      invariant forall i :: r <= i < a.Length ==> a[i] == s[i]
    {
      last := FillCell(a, r, last, s);
      r := r + 1;
    }
    Extensional(a[..], FilledDown(s));
  }

  /** Row `r` of the fill-down: a truthy cell becomes what is carried, a
      falsy one receives it. */
  method FillCell(a: array<Cell>, r: int, last: Cell, ghost s: seq<Cell>) returns (next: Cell)
    requires 0 <= r < a.Length == |s| && a[r] == s[r] && last == LastAbove(s, r)
    modifies a
    ensures next == LastAbove(s, r + 1) && a[r] == FilledDown(s)[r]
    ensures forall i :: 0 <= i < a.Length && i != r ==> a[i] == old(a[i])
  {
    var v := a[r];
    FillStep(s, r);
    if Truthy(v) {
      next := Carried(v);
    } else {
      a[r] := last;
      next := last;
    }
  }

  /** Column A of rows `1 .. max_row`. */
  function ColumnA(g: Grid): (a: seq<Cell>)
    ensures |a| == MaxRow(g)
  {
    seq(MaxRow(g), i => At(g, i + 1, 1))
  }

  /** The sheet with column A of row `i + 1` replaced by `a[i]`; the other
      columns read as before. */
  function WithColumnA(g: Grid, a: seq<Cell>): (h: Grid)
    requires |a| == MaxRow(g)
    ensures MaxRow(h) == MaxRow(g)
    ensures forall r :: 1 <= r <= MaxRow(g) ==> At(h, r, 1) == a[r - 1]
    ensures forall r, c :: 1 <= r && c != 1 ==> At(h, r, c) == At(g, r, c)
  {
    seq(|a|, i requires 0 <= i < |a| => [a[i]] + (if i < |g| && |g[i]| >= 1 then g[i][1..] else []))
  }

  // ---------------------------------------------------------------- the pivot

  /** The AU rows (lines 160-180): none without the sheet or its month
      column; otherwise extracted once column A is filled down. */
  function AuRows(au: Option<Grid>, target: string, p: Period): (rows: seq<seq<Cell>>)
    ensures Shaped(rows, |Headers|, p)
  {
    HeadersWidth();
    if au.None? then []
    else match MonthColFrom(au.value, target, 1)
      case None => []
      case Some(c) =>
        ExtractRows(WithColumnA(au.value, FilledDown(ColumnA(au.value))), DestAu, SrcAu, DataFields, c, p)
  }

  /** Lines 37-180 on the three basin sheets (`None` for a sheet the
      workbook lacks): the data rows of the pivot, US, then CA, then AU. */
  function PivotRows(us: Option<Grid>, ca: Option<Grid>, au: Option<Grid>, target: string)
    : (r: Result<seq<seq<Cell>>>)
    ensures r.Ok? ==> PeriodOf(target).Some? && Shaped(r.value, |Headers|, PeriodOf(target).value)
  {
    if us.None? then Err("Missing sheet NIS Details by Basin - US")
    else if ca.None? then Err("Missing sheet NIS Details by Basin - CA")
    else
      var cu, cc := MonthColFrom(us.value, target, 1), MonthColFrom(ca.value, target, 1);
      if cu.None? || cc.None? then Err("Cannot find column for " + target)
      else match PeriodOf(target)
        case None => Err("time data does not match format '%b-%y'")
        case Some(p) =>
          var a := ExtractRows(us.value, DestUs, SrcUs, DataFields, cu.value, p);
          var b := ExtractRows(ca.value, DestCa, SrcCa, DataFields, cc.value, p);
          var c := AuRows(au, target, p);
          HeadersWidth();
          ShapedAppend(a, b, |Headers|, p);
          ShapedAppend(a + b, c, |Headers|, p);
          Ok(a + b + c)
  }

  /** The run fails exactly when the US or CA sheet is missing, either has
      no column for the month, or the month label does not parse. */
  lemma PivotFails(us: Option<Grid>, ca: Option<Grid>, au: Option<Grid>, target: string)
    ensures PivotRows(us, ca, au, target).Err? <==>
      us.None? || ca.None? || MonthColFrom(us.value, target, 1).None? || MonthColFrom(ca.value, target, 1).None?
        || ParseMonthLabel(target).None?
  {
  }

  /** Lines 19-180 `pivot_cks_data_to_ref`, up to the rows to append. */
  method Pivot(us: Option<Grid>, ca: Option<Grid>, au: Option<Grid>, target: string)
    returns (r: Result<seq<seq<Cell>>>)
    ensures r == PivotRows(us, ca, au, target)
  {
    if us.None? {
      return Err("Missing sheet NIS Details by Basin - US");
    }
    if ca.None? {
      return Err("Missing sheet NIS Details by Basin - CA");
    }
    var cu := FindMonthCol(us.value, target);
    var cc := FindMonthCol(ca.value, target);
    if cu.None? || cc.None? {
      return Err("Cannot find column for " + target);
    }
    var period := PeriodOf(target);
    if period.None? {
      return Err("time data does not match format '%b-%y'");
    }
    var p := period.value;
    var rows := Extract(us.value, DestUs, SrcUs, DataFields, cu.value, p);
    var more := Extract(ca.value, DestCa, SrcCa, DataFields, cc.value, p);
    var last := ExtractAu(au, target, p);
    r := Ok(rows + more + last);
  }

  /** Lines 160-180: the AU sheet, when there is one and it has the month,
      filled down in column A and then extracted. */
  method ExtractAu(au: Option<Grid>, target: string, p: Period) returns (rows: seq<seq<Cell>>)
    ensures rows == AuRows(au, target, p)
  {
    rows := [];
    if au.Some? {
      var g := au.value;
      var col := FindMonthCol(g, target);
      if col.Some? {
        var a := new Cell[MaxRow(g)](i => At(g, i + 1, 1));
        assert a[..] == ColumnA(g);
        FillDown(a);
        var filled := WithColumnA(g, a[..]);
        rows := Extract(filled, DestAu, SrcAu, DataFields, col.value, p);
      }
    }
  }

  // ---------------------------------------------------------------- append

  /** Lines 189-203: on an existing "CK data Pivot" sheet the rows go
      under its last row; a new sheet gets the header in row 1 and the
      rows from row 2. */
  method AppendPivot(existing: Worksheet?, rows: seq<seq<Cell>>) returns (ws: Worksheet, start: nat)
    requires existing != null ==> existing.Valid()
    modifies existing
    ensures ws.Valid()
    ensures existing != null ==> ws == existing && start == old(existing.maxRow) + 1
    ensures existing != null ==> ws.cells == old(existing.cells) + RowsWrites(start, 1, ValueRows(rows))
    ensures existing == null ==> fresh(ws) && ws.title == PivotTitle && start == 2
    ensures existing == null ==> ws.cells == RowWrites(1, 1, TextCells(Headers)) + RowsWrites(2, 1, ValueRows(rows))
  {
    if existing != null {
      ws := existing;
      start := ws.maxRow + 1;
    } else {
      ws := new Worksheet(PivotTitle);
      var header := TextCells(Headers);
      ws.PutRow(1, 1, header);
      EmptyUnion(RowWrites(1, 1, header));
      start := 2;
    }
    var data := ValueRows(rows);
    ws.PutRows(start, 1, data);
  }

  /** Appending under the last row leaves every existing cell as it was. */
  lemma AppendKeepsRows(cells: map<(int, int), Content>, last: int, rows: seq<seq<Content>>)
    requires forall p :: p in cells ==> p.0 <= last
    ensures forall p :: p in cells ==>
      p in cells + RowsWrites(last + 1, 1, rows) && (cells + RowsWrites(last + 1, 1, rows))[p] == cells[p]
  {
    RowsWritesKeys(last + 1, 1, rows);
  }

  /** Value `j` of pivot row `i` lands in row `start + i`, column `j + 1`. */
  lemma AppendedAt(cells: map<(int, int), Content>, start: int, rows: seq<seq<Cell>>, i: int, j: int)
    requires 0 <= i < |rows| && 0 <= j < |rows[i]|
    ensures (start + i, 1 + j) in cells + RowsWrites(start, 1, ValueRows(rows))
      && (cells + RowsWrites(start, 1, ValueRows(rows)))[(start + i, 1 + j)] == Value(rows[i][j])
  {
    RowsWritesAt(start, 1, ValueRows(rows), i, j);
  }
}
