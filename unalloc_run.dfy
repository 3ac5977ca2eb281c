/** `run_unalloc_distribution` end to end: the workbook it reads, the
    checks it fails on, the distribution it computes and the
    Unalloc_Distribution sheet it writes. */
module UnallocRun {
  import opened Wrappers
  import opened Strings
  import opened Ordering
  import opened Cells
  import opened Sheets
  import opened UnallocDistribution

  // ================================================================ the workbook

  /** A sheet of the workbook read as header row and data rows. */
  datatype NamedSheet = NamedSheet(name: string, sheet: VmSheet)

  /** The Main_Combo table of the Database sheet: the header row read by
      `read_excel(header=1, usecols='A:P')` and its rows. */
  datatype DbSheet = DbSheet(headers: seq<string>, pads: seq<Pad>)

  /** The sheets in workbook order, and the Database sheet when there is
      one.  No keyword set matches the name "Database", so it is kept apart
      from the sheets the keyword search runs over. */
  datatype Workbook = Workbook(sheets: seq<NamedSheet>, database: Option<DbSheet>)

  function Names(sheets: seq<NamedSheet>): (r: seq<string>)
    ensures |r| == |sheets|
    ensures forall i :: 0 <= i < |sheets| ==> r[i] == sheets[i].name
  {
    seq(|sheets|, i requires 0 <= i < |sheets| => sheets[i].name)
  }

  /** `wb[name]`: the first sheet of that name. */
  function SheetNamed(sheets: seq<NamedSheet>, name: string): (s: VmSheet)
    requires name in Names(sheets)
    ensures exists i :: 0 <= i < |sheets| && sheets[i].name == name && sheets[i].sheet == s
  {
    if sheets[0].name == name then sheets[0].sheet
    else
      var i :| 0 <= i < |sheets| && Names(sheets)[i] == name;
      assert Names(sheets[1..])[i - 1] == name;
      var s := SheetNamed(sheets[1..], name);
      assert forall k :: 0 < k < |sheets| ==> sheets[1..][k - 1] == sheets[k];
      s
  }

  const UnallocKeys: seq<string> := ["p. vm", "unalloc"]
  const AdjustKeys: seq<string> := ["p. vm", "adjustments"]
  const CurrentKeys: seq<string> := ["p. vm", "current"]

  /** Lines 57-58: a Database header trimmed, with the two upper-case date
      headers renamed. */
  function DbHeader(h: string): (r: string)
    ensures Trimmed(r)
  {
    var t := Strip(h);
    if t == "PAD START" then "Pad Start" else if t == "PAD END" then "Pad End" else t
  }

  function DbColumns(headers: seq<string>): (r: seq<string>)
    ensures |r| == |headers|
    ensures forall k :: 0 <= k < |headers| ==> r[k] == DbHeader(headers[k])
  {
    seq(|headers|, k requires 0 <= k < |headers| => DbHeader(headers[k]))
  }

  /** Lines 41-42 and 88-90: the header row of a P. VM sheet normalised. */
  function VmColumns(headers: seq<string>): (r: seq<string>)
    ensures |r| == |headers|
    ensures forall k :: 0 <= k < |headers| ==> r[k] == NormalizeHeader(headers[k])
  {
    seq(|headers|, k requires 0 <= k < |headers| => NormalizeHeader(headers[k]))
  }

  /** Every column of `needed` is among `headers`. */
  predicate AllIn(needed: seq<string>, headers: seq<string>) {
    forall k :: 0 <= k < |needed| ==> needed[k] in headers
  }

  /** A column lookup over `headers`: KeyError on the first missing one. */
  function Present(headers: seq<string>, needed: seq<string>): (r: Result<()>)
    ensures r.Ok? <==> AllIn(needed, headers)
  {
    match FirstMissing(headers, needed)
    case Some(c) => Err("KeyError: " + c)
    case None => Ok(())
  }

  /** Lines 46-62: the Database table, which must have a Pad No column as
      read and Pad Start and Pad End columns once normalised. */
  function ReadDatabase(wb: Workbook): (r: Result<DbSheet>)
    ensures r.Ok? <==> && wb.database.Some? && "Pad No" in wb.database.value.headers
                       && AllIn(["Pad Start", "Pad End"], DbColumns(wb.database.value.headers))
    ensures r.Ok? ==> r.value == wb.database.value
  {
    var db :- Need(wb.database, "Worksheet Database does not exist");
    var _ :- Present(db.headers, ["Pad No"]);
    var _ :- Present(DbColumns(db.headers), ["Pad Start", "Pad End"]);
    Ok(db)
  }

  /** The Unalloc, Adjustments and Current sheets. */
  datatype VmSheets = VmSheets(unalloc: VmSheet, adjust: VmSheet, current: VmSheet)

  /** Lines 71-73: the Unalloc, Adjustments and Current sheets, found by
      keywords in that order. */
  function LocateSheets(sheets: seq<NamedSheet>): (r: Result<VmSheets>)
    ensures r.Ok? <==> && FirstMatch(Names(sheets), UnallocKeys).Some?
                       && FirstMatch(Names(sheets), AdjustKeys).Some?
                       && FirstMatch(Names(sheets), CurrentKeys).Some?
    ensures r.Ok? ==> exists i, j, k :: && 0 <= i < |sheets| && 0 <= j < |sheets| && 0 <= k < |sheets|
                                        && sheets[i].name == FirstMatch(Names(sheets), UnallocKeys).value
                                        && sheets[j].name == FirstMatch(Names(sheets), AdjustKeys).value
                                        && sheets[k].name == FirstMatch(Names(sheets), CurrentKeys).value
                                        && r.value == VmSheets(sheets[i].sheet, sheets[j].sheet, sheets[k].sheet)
  {
    var names := Names(sheets);
    var u :- Need(FirstMatch(names, UnallocKeys), NoSheet);
    var a :- Need(FirstMatch(names, AdjustKeys), NoSheet);
    var c :- Need(FirstMatch(names, CurrentKeys), NoSheet);
    Ok(VmSheets(SheetNamed(sheets, u), SheetNamed(sheets, a), SheetNamed(sheets, c)))
  }

  /** Line 97 `df_adjust.loc[mask]`: the mask carries the row labels of the
      Unalloc sheet, and pandas raises IndexingError when the Adjustments
      sheet has a row label the mask lacks, that is when it has more data
      rows; otherwise the filtered frame is never used again. */
  function AdjustFilter(vm: VmSheets): (r: Result<()>)
    ensures r.Ok? <==> |vm.adjust.lines| <= |vm.unalloc.lines|
  {
    if |vm.adjust.lines| <= |vm.unalloc.lines| then Ok(())
    else Err("IndexingError: Unalignable boolean Series provided as indexer")
  }

  // ================================================================ the distribution

  /** The columns the engine adds to every pad row. */
  const AddedColumns: seq<string> := ["pad_days", "Unalloc_Sand", "Unalloc_Handle", "Unalloc_Chem", "Unalloc_Daily"]

  /** What the engine writes: the summary table, the pad table's header and
      its rows. */
  datatype Distribution = Distribution(summary: seq<SummaryRow>, header: seq<string>, pads: seq<PadOut>)

  /** Lines 116-238 once every column has been found. */
  function Compute(cols: seq<string>, unalloc: seq<VmLine>, current: seq<VmLine>, raw: seq<Pad>,
                   ms: int, me: int): (d: Distribution)
    ensures |d.pads| == |MainRows(raw)|
    ensures forall i :: 0 <= i < |d.pads| ==> d.pads[i].pad == MainRows(raw)[i]
    ensures d.header == cols + AddedColumns
    ensures d.summary != [] && d.summary[|d.summary| - 1].basin == "TOTAL"
  {
    var pads := MainRows(raw);
    var s := SeriesOf(unalloc, current, pads, ms, me);
    var index := BasinUnion(s);
    var f := FinalsOf(index, s);
    Distribution(Summary(index, s, f), cols + AddedColumns, PadOuts(pads, ms, me, f))
  }

  /** Lines 233-237 over every main row. */
  function PadOuts(pads: seq<Pad>, ms: int, me: int, f: Finals): (outs: seq<PadOut>)
    ensures |outs| == |pads|
    ensures forall i :: 0 <= i < |pads| ==> outs[i] == PadOutOf(pads[i], ms, me, f) && outs[i].pad == pads[i]
  {
    seq(|pads|, i requires 0 <= i < |pads| => PadOutOf(pads[i], ms, me, f))
  }

  /** The P. VM columns the engine reads are there, and the Adjustments
      sheet is no longer than the Unalloc sheet. */
  predicate VmReadable(vm: VmSheets) {
    && AllIn(UnallocColumns, VmColumns(vm.unalloc.headers))
    && |vm.adjust.lines| <= |vm.unalloc.lines|
    && AllIn(CurrentColumns, VmColumns(vm.current.headers))
  }

  /** Lines 95-119 on the P. VM sheets: the Project Number lookup, the
      Adjustments filter, then the other Unalloc and Current columns. */
  function ReadVm(vm: VmSheets): (r: Result<()>)
    ensures r.Ok? <==> VmReadable(vm)
  {
    var cols := VmColumns(vm.unalloc.headers);
    assert AllIn(UnallocColumns, cols) ==> UnallocColumns[0] in cols;
    assert UnallocColumns[0] == "Project Number";
    var _ :- Present(cols, ["Project Number"]);
    var _ :- AdjustFilter(vm);
    var _ :- Present(cols, UnallocColumns);
    Present(VmColumns(vm.current.headers), CurrentColumns)
  }

  /** Every sheet and column the engine reads is there. */
  predicate Readable(wb: Workbook) {
    && ReadDatabase(wb).Ok?
    && LocateSheets(wb.sheets).Ok?
    && VmReadable(LocateSheets(wb.sheets).value)
    && AllIn(["LBRT BASIN", "Prop TN"], DbColumns(wb.database.value.headers))
    && AllIn(["Chem Cost"], DbColumns(wb.database.value.headers))
  }

  /** Lines 17-238: the distribution, or the first error the run meets. */
  function Distribute(wb: Workbook, ms: int, me: int): (r: Result<Distribution>)
    ensures r.Ok? <==> Readable(wb)
  {
    var db :- ReadDatabase(wb);
    var cols := DbColumns(db.headers);
    var vm :- LocateSheets(wb.sheets);
    var _ :- ReadVm(vm);
    var _ :- Present(cols, ["LBRT BASIN", "Prop TN"]);
    var _ :- Present(cols, ["Chem Cost"]);
    Ok(Compute(cols, vm.unalloc.lines, vm.current.lines, db.pads, ms, me))
  }

  /** On success every main row of the Database gives one pad row, in
      order, under a header that is the normalised Database header plus the
      five added columns, and the summary ends with its TOTAL row. */
  lemma DistributeShape(wb: Workbook, ms: int, me: int)
    requires Readable(wb)
    ensures Distribute(wb, ms, me).Ok?
    ensures var d := Distribute(wb, ms, me).value;
      var pads := MainRows(wb.database.value.pads);
      && |d.pads| == |pads|
      && (forall i :: 0 <= i < |pads| ==> d.pads[i].pad == pads[i])
      && d.header == DbColumns(wb.database.value.headers) + AddedColumns
      && d.summary != [] && d.summary[|d.summary| - 1].basin == "TOTAL"
  {
    var db := wb.database.value;
    var vm := LocateSheets(wb.sheets).value;
    assert ReadDatabase(wb) == Ok(db);
    assert Distribute(wb, ms, me) == Ok(Compute(DbColumns(db.headers), vm.unalloc.lines, vm.current.lines, db.pads, ms, me));
  }

  // ================================================================ the run

  /** Lines 160-181 for one numerator and denominator, with the sprinkle
      loop. */
  method FinalRatio(index: seq<string>, num: seq<Entry>, den: seq<Entry>) returns (f: map<string, real>)
    requires Distinct(index)
    ensures f == Final(index, num, den)
  {
    var n := Reindex(GroupSum(num), index);
    var d := Reindex(GroupSum(den), index);
    f := Sprinkle(index, Ratios(index, n, d), n, d);
  }

  /** Lines 71-73 with `find_sheet`'s loop. */
  method FindVmSheets(sheets: seq<NamedSheet>) returns (r: Result<VmSheets>)
    ensures r == LocateSheets(sheets)
  {
    var names := Names(sheets);
    var u := FindSheet(names, UnallocKeys);
    if u.Err? {
      return Err(u.error);
    }
    var a := FindSheet(names, AdjustKeys);
    if a.Err? {
      return Err(a.error);
    }
    var c := FindSheet(names, CurrentKeys);
    if c.Err? {
      return Err(c.error);
    }
    r := Ok(VmSheets(SheetNamed(sheets, u.value), SheetNamed(sheets, a.value), SheetNamed(sheets, c.value)));
  }

  /** The computing part of `run_unalloc_distribution`: the validations in the
      order the source meets them, the keyword search over the sheet names
      and the four sprinkle loops. */
  method ComputeDistribution(wb: Workbook, ms: int, me: int) returns (r: Result<Distribution>)
    ensures r == Distribute(wb, ms, me)
  {
    var db := ReadDatabase(wb);
    if db.Err? {
      return Err(db.error);
    }
    var cols := DbColumns(db.value.headers);
    var vm := FindVmSheets(wb.sheets);
    if vm.Err? {
      return Err(vm.error);
    }
    var unalloc, current := vm.value.unalloc, vm.value.current;
    var check := ReadVm(vm.value);
    if check.Err? {
      return Err(check.error);
    }
    check := Present(cols, ["LBRT BASIN", "Prop TN"]);
    if check.Err? {
      return Err(check.error);
    }
    check := Present(cols, ["Chem Cost"]);
    if check.Err? {
      return Err(check.error);
    }
    var dist := Distributed(cols, unalloc.lines, current.lines, db.value.pads, ms, me);
    r := Ok(dist);
  }

  /** Lines 116-238 with the four sprinkle loops. */
  method Distributed(cols: seq<string>, unalloc: seq<VmLine>, current: seq<VmLine>, raw: seq<Pad>,
                     ms: int, me: int) returns (dist: Distribution)
    ensures dist == Compute(cols, unalloc, current, raw, ms, me)
  {
    var pads := MainRows(raw);
    var s := SeriesOf(unalloc, current, pads, ms, me);
    var index := BasinUnion(s);
    SortedIsDistinct(index);
    var sand := FinalRatio(index, s.sand, s.prop);
    var handle := FinalRatio(index, s.handle, s.prop);
    var chem := FinalRatio(index, s.chem, s.chem);
    var daily := FinalRatio(index, s.daily, s.days);
    var f := Finals(sand, handle, chem, daily);
    dist := Distribution(Summary(index, s, f), cols + AddedColumns, PadOuts(pads, ms, me, f));
  }

  // ================================================================ the sheet written

  const SheetTitle: string := "Unalloc_Distribution"

  /** Lines 240-242: an old Unalloc_Distribution sheet is deleted and the
      new one is added after every other sheet. */
  function SheetsAfter(names: seq<string>): (r: seq<string>)
    ensures r != [] && r[|r| - 1] == SheetTitle && SheetTitle !in r[..|r| - 1]
    ensures forall n :: n != SheetTitle ==> (n in r <==> n in names)
  {
    Without(names, SheetTitle) + [SheetTitle]
  }

  function Without(names: seq<string>, t: string): (r: seq<string>)
    ensures t !in r
    ensures forall n :: n != t ==> (n in r <==> n in names)
  {
    if names == [] then []
    else if names[0] == t then Without(names[1..], t)
    else [names[0]] + Without(names[1..], t)
  }

  function NumCell(x: real): Content {
    Value(Num(x))
  }

  /** A ratio of the summary; those of the TOTAL row are written as ''. */
  function RatioCell(o: Option<real>): Content {
    match o
    case Some(x) => Value(Num(x))
    case None => Value(Text(""))
  }

  /** A pad-level value; NaN (`None`) is modelled as an empty cell, not as
      the float NaN that openpyxl stores. */
  function OptionCell(o: Option<real>): Content {
    match o
    case Some(x) => Value(Num(x))
    case None => Value(Empty)
  }

  /** Lines 247-258: the cells of one summary row, in the order of the
      summary's columns. */
  function SummaryCells(row: SummaryRow): (cs: seq<Content>)
    ensures |cs| == 11
  {
    [Value(Text(row.basin)), NumCell(row.sandUnalloc), NumCell(row.propTotal), RatioCell(row.ratioSand),
     NumCell(row.handleUnalloc), RatioCell(row.ratioHandle), NumCell(row.chemUnalloc), RatioCell(row.ratioChem),
     NumCell(row.dailyUnalloc), NumCell(row.dayTotal), RatioCell(row.ratioDaily)]
  }

  function SummaryTable(rows: seq<SummaryRow>): (t: seq<seq<Content>>)
    ensures |t| == |rows|
    ensures forall k :: 0 <= k < |rows| ==> t[k] == SummaryCells(rows[k])
  {
    seq(|rows|, k requires 0 <= k < |rows| => SummaryCells(rows[k]))
  }

  /** Lines 268-278: a pad's cells as read, then its pad days and its four
      distributed amounts. */
  function PadCells(p: PadOut): (cs: seq<Content>)
    ensures |cs| == |p.pad.cells| + 5
  {
    seq(|p.pad.cells|, j requires 0 <= j < |p.pad.cells| => Value(p.pad.cells[j]))
      + [match p.padDays case Some(n) => Value(Int(n)) case None => Value(Empty),
         OptionCell(p.sand), OptionCell(p.handle), OptionCell(p.chem), OptionCell(p.daily)]
  }

  function PadTable(pads: seq<PadOut>): (t: seq<seq<Content>>)
    ensures |t| == |pads|
    ensures forall i :: 0 <= i < |pads| ==> t[i] == PadCells(pads[i])
  {
    seq(|pads|, i requires 0 <= i < |pads| => PadCells(pads[i]))
  }

  /** Row of the pad table's header: two blank rows under the summary. */
  function HeaderRow(d: Distribution): int {
    |d.summary| + 3
  }

  /** The cells of the Unalloc_Distribution sheet. */
  function Layout(d: Distribution): map<(int, int), Content> {
    RowsWrites(1, 1, SummaryTable(d.summary))
      + RowWrites(HeaderRow(d), 1, TextCells(d.header))
      + RowsWrites(HeaderRow(d) + 1, 1, PadTable(d.pads))
  }

  /** Lines 240-278: the new sheet and what is written into it. */
  method WriteDistribution(d: Distribution) returns (ws: Worksheet)
    ensures fresh(ws) && ws.Valid() && ws.title == SheetTitle
    ensures ws.cells == Layout(d)
  {
    ws := new Worksheet(SheetTitle);
    var top, header, body := SummaryTable(d.summary), TextCells(d.header), PadTable(d.pads);
    var h := HeaderRow(d);
    var h1 := h + 1;
    ws.PutRows(1, 1, top);
    ws.PutRow(h, 1, header);
    ws.PutRows(h1, 1, body);
    EmptyUnion(RowsWrites(1, 1, top));
  }

  /** `run_unalloc_distribution` on a workbook whose sheet names are
      `sheetNames`: the sheets of `wb` in order, with "Database" wherever it
      stands when the workbook has it.  On success the new sheet and the
      workbook's new sheet list, on failure no sheet written. */
  method RunUnallocDistribution(wb: Workbook, sheetNames: seq<string>, ms: int, me: int)
    returns (r: Result<Distribution>, ws: Worksheet?, after: seq<string>)
    requires Without(sheetNames, "Database") == Names(wb.sheets)
    requires wb.database.Some? <==> "Database" in sheetNames
    ensures r == Distribute(wb, ms, me)
    ensures r.Err? ==> ws == null && after == sheetNames
    ensures r.Ok? ==> ws != null && fresh(ws) && ws.title == SheetTitle && ws.cells == Layout(r.value)
    ensures r.Ok? ==> after == SheetsAfter(sheetNames)
  {
    r := ComputeDistribution(wb, ms, me);
    if r.Err? {
      return r, null, sheetNames;
    }
    ws := WriteDistribution(r.value);
    after := SheetsAfter(sheetNames);
  }

  // ================================================================ layout lemmas

  /** Summary row `k` is written in sheet row `k + 1`. */
  lemma SummaryPlacement(d: Distribution, k: int, j: int)
    requires 0 <= k < |d.summary| && 0 <= j < 11
    ensures (k + 1, j + 1) in Layout(d)
    ensures Layout(d)[(k + 1, j + 1)] == SummaryCells(d.summary[k])[j]
  {
    var t := SummaryTable(d.summary);
    RowsWritesAt(1, 1, t, k, j);
    RowWritesKeys(HeaderRow(d), 1, TextCells(d.header));
    RowsWritesKeys(HeaderRow(d) + 1, 1, PadTable(d.pads));
  }

  /** The two rows between the summary and the pad table stay blank. */
  lemma BlankRows(d: Distribution, c: int)
    ensures (|d.summary| + 1, c) !in Layout(d)
    ensures (|d.summary| + 2, c) !in Layout(d)
  {
    RowsWritesKeys(1, 1, SummaryTable(d.summary));
    RowWritesKeys(HeaderRow(d), 1, TextCells(d.header));
    RowsWritesKeys(HeaderRow(d) + 1, 1, PadTable(d.pads));
  }

  /** Lines 262-265: the pad table's header names each column. */
  lemma HeaderPlacement(d: Distribution, j: int)
    requires 0 <= j < |d.header|
    ensures (HeaderRow(d), j + 1) in Layout(d)
    ensures Layout(d)[(HeaderRow(d), j + 1)] == Value(Text(d.header[j]))
  {
    RowWritesAt(HeaderRow(d), 1, TextCells(d.header), j);
    RowsWritesKeys(HeaderRow(d) + 1, 1, PadTable(d.pads));
  }

  /** Pad `i` is written in the `i + 1`-th row under the header. */
  lemma PadPlacement(d: Distribution, i: int, j: int)
    requires 0 <= i < |d.pads| && 0 <= j < |d.pads[i].pad.cells| + 5
    ensures (HeaderRow(d) + 1 + i, j + 1) in Layout(d)
    ensures Layout(d)[(HeaderRow(d) + 1 + i, j + 1)] == PadCells(d.pads[i])[j]
  {
    var t, h := PadTable(d.pads), HeaderRow(d) + 1;
    RowsWritesAt(h, 1, t, i, j);
    assert t[i] == PadCells(d.pads[i]);
    assert Layout(d) == RowsWrites(1, 1, SummaryTable(d.summary)) + RowWrites(HeaderRow(d), 1, TextCells(d.header)) + RowsWrites(h, 1, t);
  }

  /** Nothing is written left of column 1 or above row 1. */
  lemma LayoutKeys(d: Distribution)
    ensures forall p :: p in Layout(d) ==> p.0 >= 1 && p.1 >= 1
  {
    RowsWritesKeys(1, 1, SummaryTable(d.summary));
    RowWritesKeys(HeaderRow(d), 1, TextCells(d.header));
    RowsWritesKeys(HeaderRow(d) + 1, 1, PadTable(d.pads));
  }
}
