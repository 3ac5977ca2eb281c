/** The exchange rates of a run and the cleaned CAD sheet: the CAD/USD
    ratio of the two N5 cells, the AUD/USD ratio of the first usable pair in
    column N, the upsert of a rate into the reference "FX" table, and the
    six-digit account rows of "Data Sort CAD". */
module FxOperations {
  import opened Wrappers
  import opened Strings
  import opened Ordering
  import opened Cells
  import opened Seqs
  import ComparisonOps

  // ---------------------------------------------------------------- CAD/USD

  /** The value of a cell that `/` accepts: an integer or a float. */
  function Number(c: Cell): (r: Option<real>)
    ensures r.Some? <==> c.Int? || c.Num?
    ensures Truthy(c) && r.Some? ==> r.value != 0.0
  {
    match c
    case Int(i) => Some(i as real)
    case Num(x) => Some(x)
    case _ => None
  }

  /** Lines 75-80: CA!N5 / USD!N5.  A falsy value is refused; text or a
      date makes the division raise. */
  function CadRatio(usd: Cell, ca: Cell): (r: Result<real>)
    ensures r.Ok? <==> Truthy(usd) && Truthy(ca) && Number(usd).Some? && Number(ca).Some?
    ensures r.Ok? ==> r.value * Number(usd).value == Number(ca).value
  {
    if !Truthy(usd) || !Truthy(ca) then Err("N5 is empty or invalid in USD/CA sheets (CAD).")
    else match (Number(usd), Number(ca))
      case (Some(u), Some(a)) => Ok(a / u)
      case _ => Err("unsupported operand type(s) for /")
  }

  /** Lines 83-85 and 153-155: the text of the last header of row 2, or
      "UnknownMonth" when it is falsy.  `None` is the text of a float, which
      is not modelled. */
  function LatestMonth(g: Grid): (r: Option<string>)
    ensures !Truthy(At(g, 2, MaxCol(g))) ==> r == Some("UnknownMonth")
    ensures Truthy(At(g, 2, MaxCol(g))) ==> r == PyStr(At(g, 2, MaxCol(g)))
  {
    var h := At(g, 2, MaxCol(g));
    if Truthy(h) then PyStr(h) else Some("UnknownMonth")
  }

  /** Lines 62-92 `calculate_fx_n5` up to the upsert: the ratio and the month
      it is filed under. */
  function CadFx(usd: Grid, ca: Grid): (r: Result<(real, Option<string>)>)
    ensures r.Ok? <==> CadRatio(At(usd, 5, ColumnN), At(ca, 5, ColumnN)).Ok?
    ensures r.Ok? ==> r.value.0 * Number(At(usd, 5, ColumnN)).value == Number(At(ca, 5, ColumnN)).value
    ensures r.Ok? ==> r.value.1 == LatestMonth(usd)
  {
    var fx :- CadRatio(At(usd, 5, ColumnN), At(ca, 5, ColumnN));
    Ok((fx, LatestMonth(usd)))
  }

  // ---------------------------------------------------------------- AUD/USD

  /** Column N. */
  const ColumnN: nat := 14

  /** The scan starts at row 5. */
  const FirstScanRow: nat := 5

  /** Line 124: the scan stops at the shorter sheet's last row. */
  function ScanEnd(usd: Grid, aud: Grid): nat {
    if MaxRow(usd) <= MaxRow(aud) then MaxRow(usd) else MaxRow(aud)
  }

  /** Lines 125-133 for one row: both column-N values are truthy, `float`
      accepts both, and neither is zero. */
  function PairAt(usd: Grid, aud: Grid, row: int): (p: Option<(real, real)>)
    ensures p.Some? ==> p.value.0 != 0.0 && p.value.1 != 0.0
    ensures p.Some? ==> Truthy(At(usd, row, ColumnN)) && Truthy(At(aud, row, ColumnN))
    ensures p.Some? ==> FloatOf(At(usd, row, ColumnN)) == Some(p.value.0) && FloatOf(At(aud, row, ColumnN)) == Some(p.value.1)
  {
    var u, a := At(usd, row, ColumnN), At(aud, row, ColumnN);
    if Truthy(u) && Truthy(a) then
      match (FloatOf(u), FloatOf(a))
      case (Some(x), Some(y)) => if x != 0.0 && y != 0.0 then Some((x, y)) else None
      case _ => None
    else None
  }

  /** `row` is the first row of the scan with a usable pair. */
  predicate FirstPair(usd: Grid, aud: Grid, row: int) {
    && FirstScanRow <= row <= ScanEnd(usd, aud)
    && PairAt(usd, aud, row).Some?
    && forall k :: FirstScanRow <= k < row ==> PairAt(usd, aud, k).None?
  }

  /** At most one row is the first. */
  lemma FirstPairUnique(usd: Grid, aud: Grid, a: int, b: int)
    requires FirstPair(usd, aud, a) && FirstPair(usd, aud, b)
    ensures a == b
  {
  }

  /** Lines 117-144: the AUD value over the USD value of the first usable
      pair, or the error when no row of the scan has one. */
  method AudRatio(usd: Grid, aud: Grid) returns (r: Result<real>)
    ensures r.Err? <==> forall row :: FirstScanRow <= row <= ScanEnd(usd, aud) ==> PairAt(usd, aud, row).None?
    ensures r.Ok? ==> exists row :: (FirstPair(usd, aud, row)
      && r.value == PairAt(usd, aud, row).value.1 / PairAt(usd, aud, row).value.0)
  {
    var last := ScanEnd(usd, aud);
    var row := FirstScanRow;
    while row <= last
      invariant FirstScanRow <= row
      invariant row <= last + 1 || row == FirstScanRow
      invariant forall k :: FirstScanRow <= k < row ==> PairAt(usd, aud, k).None?
    {
      var p := PairAt(usd, aud, row);
      if p.Some? {
        var x, y := p.value.0, p.value.1;
        assert FirstPair(usd, aud, row);
        return Ok(y / x);
      }
      NoPairStep(usd, aud, FirstScanRow, row);
      row := row + 1;
    }
    return Err("No valid non-zero pair found in column N for AUD→USD calculation.");
  }

  /** One more row without a pair extends a run of rows without one. */
  lemma {:induction false} NoPairStep(usd: Grid, aud: Grid, lo: int, row: int)
    requires forall k :: lo <= k < row ==> PairAt(usd, aud, k).None?
    requires PairAt(usd, aud, row).None?
    ensures forall k :: lo <= k < row + 1 ==> PairAt(usd, aud, k).None?
  {
  }

  /** Lines 148-155: the month passed in when it is non-empty, otherwise the
      last header of the USD sheet. */
  function AudMonth(existing: Option<string>, usd: Grid): (r: Option<string>)
    ensures existing.Some? && existing.value != "" ==> r == existing
    ensures existing.None? || existing.value == "" ==> r == LatestMonth(usd)
  {
    if existing.Some? && existing.value != "" then existing else LatestMonth(usd)
  }

  // ---------------------------------------------------------------- the FX table

  /** A frame as `read_excel` gives it: named columns, rows of cells. */
  datatype Frame = Frame(columns: seq<string>, rows: seq<seq<Cell>>)

  /** Column names are distinct and every row has one cell per column. */
  predicate WellFormed(f: Frame) {
    Distinct(f.columns) && forall i :: 0 <= i < |f.rows| ==> |f.rows[i]| == |f.columns|
  }

  /** `fx_df.empty`: no sheet, no column or no row. */
  predicate EmptyFrame(sheet: Option<Frame>) {
    sheet.None? || sheet.value.columns == [] || sheet.value.rows == []
  }

  /** Lines 195-196: "Period" becomes "Date" when there is no "Date". */
  function Renamed(cols: seq<string>): (r: seq<string>)
    ensures |r| == |cols|
    ensures "Date" in cols || "Period" !in cols ==> r == cols
    ensures "Date" !in cols && "Period" in cols ==>
      forall k :: 0 <= k < |cols| ==> r[k] == if cols[k] == "Period" then "Date" else cols[k]
  {
    if "Date" in cols || "Period" !in cols then cols
    else seq(|cols|, k requires 0 <= k < |cols| => if cols[k] == "Period" then "Date" else cols[k])
  }

  /** Renaming keeps the column names distinct. */
  lemma RenamedDistinct(cols: seq<string>)
    requires Distinct(cols)
    ensures Distinct(Renamed(cols))
  {
  }

  /** Lines 198-201 for one column: added at the end, blank in every row,
      when missing. */
  function WithColumn(f: Frame, name: string): (r: Frame)
    requires WellFormed(f)
    ensures WellFormed(r) && name in r.columns
    ensures name in f.columns ==> r == f
    ensures name !in f.columns ==> (r.columns == f.columns + [name] && |r.rows| == |f.rows|
      && forall i :: 0 <= i < |f.rows| ==> r.rows[i] == f.rows[i] + [Empty])
  {
    if name in f.columns then f
    else
      var rows := seq(|f.rows|, i requires 0 <= i < |f.rows| => f.rows[i] + [Empty]);
      assert forall k :: 0 <= k < |f.columns| ==> (f.columns + [name])[k] == f.columns[k];
      Frame(f.columns + [name], rows)
  }

  /** Lines 194-201: the rename, then the Date and rate columns added. */
  function Normalized(f: Frame, col: string): (r: Frame)
    requires WellFormed(f)
    ensures WellFormed(r) && "Date" in r.columns && col in r.columns
  {
    RenamedDistinct(f.columns);
    WithColumn(WithColumn(Frame(Renamed(f.columns), f.rows), "Date"), col)
  }

  /** Adding a column keeps the old columns first and every old cell where
      it was; the new cells are blank. */
  lemma WithColumnKeeps(f: Frame, name: string, i: nat, k: nat)
    requires WellFormed(f) && i < |f.rows| && k < |WithColumn(f, name).columns|
    ensures WithColumn(f, name).columns[..|f.columns|] == f.columns
    ensures WithColumn(f, name).rows[i][k] == if k < |f.columns| then f.rows[i][k] else Empty
  {
  }

  /** Normalising renames or adds columns only: the old columns come first,
      renamed, and every old cell stays where it was; new cells are blank. */
  lemma NormalizedKeeps(f: Frame, col: string, i: nat, k: nat)
    requires WellFormed(f) && i < |f.rows| && k < |Normalized(f, col).columns|
    ensures |Normalized(f, col).rows| == |f.rows|
    ensures Normalized(f, col).columns[..|f.columns|] == Renamed(f.columns)
    ensures Normalized(f, col).rows[i][k] == if k < |f.columns| then f.rows[i][k] else Empty
  {
    RenamedDistinct(f.columns);
    var f1 := Frame(Renamed(f.columns), f.rows);
    var f2 := WithColumn(f1, "Date");
    var f3 := WithColumn(f2, col);
    WithColumnKeeps(f2, col, i, k);
    if k < |f2.columns| {
      WithColumnKeeps(f1, "Date", i, k);
    }
    assert f3.columns[..|f.columns|] == f3.columns[..|f2.columns|][..|f.columns|];
  }

  /** `str(v)` of a Date value as pandas renders it: a blank read from the
      sheet is NaN, "nan".  A Date column that line 199 adds holds `None`,
      which renders "None"; the model renders it "nan" too, which differs
      only for a month text "nan" or "None". */
  function DateText(c: Cell): Option<string> {
    if c.Empty? then Some("nan") else PyStr(c)
  }

  /** Line 204: the Date column as text. */
  function DateTexts(rows: seq<seq<Cell>>, d: nat): (ts: seq<Option<string>>)
    requires forall i :: 0 <= i < |rows| ==> d < |rows[i]|
    ensures |ts| == |rows| && forall i :: 0 <= i < |rows| ==> ts[i] == DateText(rows[i][d])
  {
    seq(|rows|, i requires 0 <= i < |rows| => DateText(rows[i][d]))
  }

  /** Lines 206-207: the rate in column `c` of every row dated `month`. */
  function Overwritten(rows: seq<seq<Cell>>, d: nat, c: nat, month: string, fx: real): (r: seq<seq<Cell>>)
    requires forall i :: 0 <= i < |rows| ==> d < |rows[i]| && c < |rows[i]|
    ensures |r| == |rows| && forall i :: 0 <= i < |rows| ==> |r[i]| == |rows[i]|
  {
    seq(|rows|, i requires 0 <= i < |rows| =>
      if DateText(rows[i][d]) == Some(month) then rows[i][c := Num(fx)] else rows[i])
  }

  /** Line 210: the new row, blank outside its two cells. */
  function NewRow(width: nat, d: nat, c: nat, month: string, fx: real): (r: seq<Cell>)
    ensures |r| == width
  {
    seq(width, k requires 0 <= k < width => if k == d then Text(month) else if k == c then Num(fx) else Empty)
  }

  /** Lines 204-212: overwrite the rate of the rows dated `month`, or append
      a row for it. */
  function Upserted(f: Frame, month: string, fx: real, col: string): (r: Frame)
    requires WellFormed(f) && "Date" in f.columns && col in f.columns
    ensures WellFormed(r) && r.columns == f.columns
  {
    var d, c := IndexOf(f.columns, "Date").value, IndexOf(f.columns, col).value;
    if Some(month) in DateTexts(f.rows, d) then Frame(f.columns, Overwritten(f.rows, d, c, month, fx))
    else Frame(f.columns, f.rows + [NewRow(|f.columns|, d, c, month, fx)])
  }

  /** When the month is present: the row count is unchanged, every row dated
      `month` gets the rate in the rate column, and nothing else changes. */
  lemma UpsertPresent(f: Frame, month: string, fx: real, col: string)
    requires WellFormed(f) && "Date" in f.columns && col in f.columns
    requires exists i :: 0 <= i < |f.rows| && DateText(f.rows[i][IndexOf(f.columns, "Date").value]) == Some(month)
    ensures |Upserted(f, month, fx, col).rows| == |f.rows|
    ensures forall i, k :: 0 <= i < |f.rows| && 0 <= k < |f.columns| ==>
      Upserted(f, month, fx, col).rows[i][k] ==
        if f.columns[k] == col && DateText(f.rows[i][IndexOf(f.columns, "Date").value]) == Some(month) then Num(fx)
        else f.rows[i][k]
  {
    var d := IndexOf(f.columns, "Date").value;
    var i :| 0 <= i < |f.rows| && DateText(f.rows[i][d]) == Some(month);
    assert DateTexts(f.rows, d)[i] == Some(month);
  }

  /** When the month is absent: exactly one row is appended at the end,
      dated `month` and carrying the rate, blank elsewhere. */
  lemma UpsertAbsent(f: Frame, month: string, fx: real, col: string)
    requires WellFormed(f) && "Date" in f.columns && col in f.columns
    requires forall i :: 0 <= i < |f.rows| ==> DateText(f.rows[i][IndexOf(f.columns, "Date").value]) != Some(month)
    ensures Upserted(f, month, fx, col).rows[..|f.rows|] == f.rows
    ensures |Upserted(f, month, fx, col).rows| == |f.rows| + 1
    ensures forall k :: 0 <= k < |f.columns| ==>
      Upserted(f, month, fx, col).rows[|f.rows|][k] ==
        if f.columns[k] == "Date" then Text(month) else if f.columns[k] == col then Num(fx) else Empty
  {
    var d := IndexOf(f.columns, "Date").value;
    assert Some(month) !in DateTexts(f.rows, d);
    var r := Upserted(f, month, fx, col);
    assert r.rows == f.rows + [NewRow(|f.columns|, d, IndexOf(f.columns, col).value, month, fx)];
  }

  /** After the upsert the month is present, and every row dated `month` has
      the new rate. */
  lemma UpsertFiled(f: Frame, month: string, fx: real, col: string)
    requires WellFormed(f) && "Date" in f.columns && col in f.columns && col != "Date"
    ensures var r := Upserted(f, month, fx, col); var d, c := IndexOf(r.columns, "Date").value, IndexOf(r.columns, col).value;
      && (exists i :: 0 <= i < |r.rows| && DateText(r.rows[i][d]) == Some(month))
      && forall i :: 0 <= i < |r.rows| && DateText(r.rows[i][d]) == Some(month) ==> r.rows[i][c] == Num(fx)
  {
    var r := Upserted(f, month, fx, col);
    var d, c := IndexOf(f.columns, "Date").value, IndexOf(f.columns, col).value;
    if Some(month) in DateTexts(f.rows, d) {
      var i :| 0 <= i < |f.rows| && DateTexts(f.rows, d)[i] == Some(month);
      assert DateText(r.rows[i][d]) == Some(month);
    } else {
      var n := |f.rows|;
      assert r.rows[n] == NewRow(|f.columns|, d, c, month, fx);
      assert DateText(r.rows[n][d]) == Some(month);
      assert forall i :: 0 <= i < n ==> r.rows[i] == f.rows[i];
    }
  }

  /** Filing the same rate twice changes nothing more. */
  lemma UpsertIdempotent(f: Frame, month: string, fx: real, col: string)
    requires WellFormed(f) && "Date" in f.columns && col in f.columns && col != "Date"
    ensures Upserted(Upserted(f, month, fx, col), month, fx, col) == Upserted(f, month, fx, col)
  {
    var r := Upserted(f, month, fx, col);
    var d, c := IndexOf(f.columns, "Date").value, IndexOf(f.columns, col).value;
    UpsertFiled(f, month, fx, col);
    var i :| 0 <= i < |r.rows| && DateText(r.rows[i][d]) == Some(month);
    assert DateTexts(r.rows, d)[i] == Some(month);
    var rr := Overwritten(r.rows, d, c, month, fx);
    assert forall j :: 0 <= j < |r.rows| ==> rr[j] == r.rows[j];
  }

  /** The FX table as lines 186-212 update it in place. */
  class FxTable {
    var columns: seq<string>
    var rows: seq<seq<Cell>>

    ghost function Contents(): Frame
      reads this
    {
      Frame(columns, rows)
    }

    ghost predicate Valid()
      reads this
    {
      WellFormed(Contents())
    }

    /** Lines 186-192: the sheet as read, or the two columns and no row when
        there is no sheet or it is empty. */
    constructor (sheet: Option<Frame>, col: string)
      requires col != "Date" && (sheet.Some? ==> WellFormed(sheet.value))
      ensures Valid()
      ensures EmptyFrame(sheet) ==> Contents() == Frame(["Date", col], [])
      ensures !EmptyFrame(sheet) ==> Contents() == sheet.value
    {
      if EmptyFrame(sheet) {
        columns, rows := ["Date", col], [];
      } else {
        columns, rows := sheet.value.columns, sheet.value.rows;
      }
    }

    /** Lines 194-201. */
    method Normalize(col: string)
      requires Valid()
      modifies this
      ensures Valid() && "Date" in columns && col in columns
      ensures Contents() == Normalized(old(Contents()), col)
    {
      RenamedDistinct(columns);
      var f := WithColumn(Frame(Renamed(columns), rows), "Date");
      f := WithColumn(f, col);
      columns, rows := f.columns, f.rows;
    }

    /** Lines 204-212. */
    method Upsert(month: string, fx: real, col: string)
      requires Valid() && "Date" in columns && col in columns
      modifies this
      ensures Valid() && columns == old(columns)
      ensures Contents() == Upserted(old(Contents()), month, fx, col)
    {
      var d, c := IndexOf(columns, "Date").value, IndexOf(columns, col).value;
      if Some(month) in DateTexts(rows, d) {
        rows := Overwritten(rows, d, c, month, fx);
      } else {
        rows := rows + [NewRow(|columns|, d, c, month, fx)];
      }
    }
  }

  /** A sheet of the reference workbook: its name and its cells. */
  datatype RefSheet = RefSheet(name: string, grid: Grid)

  /** Whether the workbook has a sheet of that name. */
  predicate HasSheet(book: seq<RefSheet>, name: string) {
    exists k :: 0 <= k < |book| && book[k].name == name
  }

  /** Lines 220-222, `dataframe_to_rows(fx_df, index=False, header=True)`:
      the column names in row 1, then the rows in order.  A blank is
      written back blank. */
  function FxGrid(f: Frame): (g: Grid)
    ensures |g| == |f.rows| + 1 && |g[0]| == |f.columns|
    ensures forall k :: 0 <= k < |f.columns| ==> g[0][k] == Text(f.columns[k])
    ensures forall i :: 0 <= i < |f.rows| ==> g[i + 1] == f.rows[i]
  {
    [seq(|f.columns|, k requires 0 <= k < |f.columns| => Text(f.columns[k]))] + f.rows
  }

  /** Lines 214-228 as written: a fresh workbook holding the one sheet "FX"
      is saved over the reference file, so every other sheet it held is
      gone. */
  function SavedAsWritten(f: Frame): seq<RefSheet> {
    [RefSheet("FX", FxGrid(f))]
  }

  /** The saved reference workbook has "FX" and no other sheet, whatever
      it held before. */
  lemma SavedOnlyFx(book: seq<RefSheet>, f: Frame, name: string)
    ensures HasSheet(SavedAsWritten(f), name) <==> name == "FX"
    ensures HasSheet(book, name) && name != "FX" ==> !HasSheet(SavedAsWritten(f), name)
  {
    if name == "FX" {
      assert SavedAsWritten(f)[0].name == "FX";
    }
  }

  /** The comparison that the workflow runs next reads "Account Groups"
      from the same reference file (comparison_operations.py:74-76).  With
      the workbook saved as written that sheet is gone, so the comparison
      fails. */
  lemma GroupsLostAfterUpdate(f: Frame, inp: ComparisonOps.Inputs)
    requires inp.hasGroups == HasSheet(SavedAsWritten(f), "Account Groups")
    ensures ComparisonOps.Compare(inp).Err?
  {
    SavedOnlyFx([], f, "Account Groups");
    ComparisonOps.CompareSucceeds(inp);
  }

  /** `book` with every sheet named "FX" replaced by `fx`. */
  function ReplaceFx(book: seq<RefSheet>, fx: RefSheet): (r: seq<RefSheet>)
    ensures |r| == |book|
    ensures forall k :: 0 <= k < |book| ==> r[k] == if book[k].name == "FX" then fx else book[k]
  {
    seq(|book|, k requires 0 <= k < |book| => if book[k].name == "FX" then fx else book[k])
  }

  /** The sheets of `book` other than "FX", in order. */
  function Others(book: seq<RefSheet>): (r: seq<RefSheet>)
    ensures forall s :: s in r <==> s in book && s.name != "FX"
  {
    if book == [] then []
    else (if book[0].name == "FX" then [] else [book[0]]) + Others(book[1..])
  }

  /** The evident intent: the reference workbook with its "FX" sheet
      replaced by the new table, or the table added as a last sheet "FX",
      every other sheet kept. */
  function SavedKeeping(book: seq<RefSheet>, f: Frame): seq<RefSheet> {
    var fx := RefSheet("FX", FxGrid(f));
    if HasSheet(book, "FX") then ReplaceFx(book, fx) else book + [fx]
  }

  /** Replacing the FX sheets leaves the other sheets in order. */
  lemma {:induction false} ReplaceKeepsOthers(book: seq<RefSheet>, fx: RefSheet)
    requires fx.name == "FX"
    ensures Others(ReplaceFx(book, fx)) == Others(book)
  {
    if book != [] {
      var r := ReplaceFx(book, fx);
      assert r[1..] == ReplaceFx(book[1..], fx);
      ReplaceKeepsOthers(book[1..], fx);
    }
  }

  /** Appending an FX sheet leaves the other sheets in order. */
  lemma {:induction false} AppendKeepsOthers(book: seq<RefSheet>, fx: RefSheet)
    requires fx.name == "FX"
    ensures Others(book + [fx]) == Others(book)
  {
    if book == [] {
      assert Others([fx]) == [] + Others([]);
    } else {
      assert (book + [fx])[1..] == book[1..] + [fx];
      AppendKeepsOthers(book[1..], fx);
    }
  }

  /** The corrected save keeps every other sheet, in order and unchanged,
      and every sheet named "FX" holds the new table. */
  lemma SavedKeepingKeeps(book: seq<RefSheet>, f: Frame)
    ensures Others(SavedKeeping(book, f)) == Others(book)
    ensures HasSheet(SavedKeeping(book, f), "FX")
    ensures forall s :: s in SavedKeeping(book, f) && s.name == "FX" ==> s.grid == FxGrid(f)
  {
    var fx := RefSheet("FX", FxGrid(f));
    var r := SavedKeeping(book, f);
    if HasSheet(book, "FX") {
      ReplaceKeepsOthers(book, fx);
      var k :| 0 <= k < |book| && book[k].name == "FX";
      assert r[k] == fx;
    } else {
      AppendKeepsOthers(book, fx);
      assert r[|book|] == fx;
    }
  }

  /** With the corrected save, "Account Groups" survives the update. */
  lemma GroupsKept(book: seq<RefSheet>, f: Frame)
    ensures HasSheet(book, "Account Groups") ==> HasSheet(SavedKeeping(book, f), "Account Groups")
  {
    if HasSheet(book, "Account Groups") {
      var k :| 0 <= k < |book| && book[k].name == "Account Groups";
      assert book[k] in Others(book);
      SavedKeepingKeeps(book, f);
      assert book[k] in SavedKeeping(book, f);
    }
  }

  /** Lines 166-228, `update_fx_ref`: the table read, normalised unless it
      was empty, the rate filed, and the workbook saved over the reference
      file, which then holds only "FX". */
  method UpdateFxRef(sheet: Option<Frame>, month: string, fx: real, col: string)
    returns (t: FxTable, saved: seq<RefSheet>)
    requires col != "Date" && (sheet.Some? ==> WellFormed(sheet.value))
    ensures fresh(t) && t.Valid()
    ensures EmptyFrame(sheet) ==> t.Contents() == Upserted(Frame(["Date", col], []), month, fx, col)
    ensures !EmptyFrame(sheet) ==> t.Contents() == Upserted(Normalized(sheet.value, col), month, fx, col)
    ensures saved == SavedAsWritten(t.Contents())
  {
    t := new FxTable(sheet, col);
    if !EmptyFrame(sheet) {
      t.Normalize(col);
    }
    t.Upsert(month, fx, col);
    saved := [RefSheet("FX", FxGrid(Frame(t.columns, t.rows)))];
  }

  // ---------------------------------------------------------------- Data Sort CAD

  /** One row of "Data Sort CAD". */
  datatype CadRow = CadRow(sn: nat, revenue: Cell, account: string, value: Cell)

  /** `s.split('-')[0]`: the text before the first '-'. */
  function BeforeDash(s: string): (r: string)
    ensures |r| <= |s| && '-' !in r && r == s[..|r|]
    ensures |r| < |s| ==> s[|r|] == '-'
  {
    if s == [] || s[0] == '-' then []
    else [s[0]] + BeforeDash(s[1..])
  }

  /** Line 264-265: `str(v).split('-')[0].strip()`.  `None` is the text of a
      float, which always holds a point and so never passes line 266. */
  function AccountText(c: Cell): Option<string> {
    match PyStr(c)
    case Some(t) => Some(Strip(BeforeDash(t)))
    case None => None
  }

  /** Lines 263-266: column A is truthy and its account part is six digits. */
  predicate KeptAccount(c: Cell) {
    Truthy(c) && AccountText(c).Some? && IsSixDigits(AccountText(c).value)
  }

  /** Line 244: the cells of row 2 up to the last column. */
  function Headers(g: Grid): (hs: seq<Cell>)
    ensures |hs| == MaxCol(g) && forall k :: 0 <= k < |hs| ==> hs[k] == At(g, 2, k + 1)
  {
    seq(MaxCol(g), k requires 0 <= k < MaxCol(g) => At(g, 2, k + 1))
  }

  /** Lines 245-257: the month's column, the first header equal to it; when
      there is none and the user agrees, the last header and its column;
      otherwise the error.  The header is the month's new name. */
  function MonthColumn(g: Grid, month: string, useLast: bool): (r: Result<(Cell, nat)>)
    ensures r.Ok? ==> 1 <= r.value.1 <= MaxCol(g) && At(g, 2, r.value.1) == r.value.0
    ensures Text(month) in Headers(g) ==> (r.Ok? && r.value.0 == Text(month)
      && Text(month) !in Headers(g)[..r.value.1 - 1])
    ensures Text(month) !in Headers(g) ==> (r.Ok? <==> useLast) && (r.Ok? ==> r.value.1 == MaxCol(g))
  {
    var hs := Headers(g);
    if Text(month) !in hs then
      if useLast then Ok((hs[|hs| - 1], |hs|)) else Err("No valid month found in CA headers.")
    else
      var k := IndexOf(hs, Text(month)).value;
      Ok((Text(month), k + 1))
  }

  /** The rows lines 261-275 build from sheet rows 5 to `last`, numbered
      from 1. */
  function CadRows(g: Grid, col: nat, last: int): (rs: seq<CadRow>)
    decreases last
  {
    if last < 5 then []
    else
      var front := CadRows(g, col, last - 1);
      if KeptAccount(At(g, last, 1)) then front + [Entry(g, col, last, |front| + 1)] else front
  }

  /** Lines 268-273: the row kept from sheet row `row` as number `sn`. */
  function Entry(g: Grid, col: nat, row: int, sn: nat): CadRow {
    CadRow(sn, At(g, row, 2), AccountText(At(g, row, 1)).GetOr(""), At(g, row, col))
  }

  /** Kept row `k` is a six-digit account row of the sheet, numbered k + 1. */
  predicate FromRow(g: Grid, col: nat, row: int, k: nat, x: CadRow) {
    KeptAccount(At(g, row, 1)) && x == Entry(g, col, row, k + 1)
  }

  /** Every kept row comes from a six-digit account row, in order, and the
      serial numbers run 1, 2, ..., n. */
  lemma {:induction false} CadRowsSound(g: Grid, col: nat, last: int, k: nat)
    requires k < |CadRows(g, col, last)|
    ensures exists row :: 5 <= row <= last && FromRow(g, col, row, k, CadRows(g, col, last)[k])
    decreases last
  {
    var rs, front := CadRows(g, col, last), CadRows(g, col, last - 1);
    if k < |front| {
      CadRowsSound(g, col, last - 1, k);
      var row :| 5 <= row <= last - 1 && FromRow(g, col, row, k, front[k]);
      CadRowsKeepsEarlier(g, col, last, k);
      assert FromRow(g, col, row, k, rs[k]);
    } else {
      CadRowsLast(g, col, last);
      CadRowsSkipped(g, col, last, front);
      assert FromRow(g, col, last, k, rs[k]);
    }
  }

  /** Every six-digit account row of the sheet is kept, as number one more
      than the rows kept above it. */
  lemma CadRowsComplete(g: Grid, col: nat, last: int, row: int)
    requires 5 <= row <= last && KeptAccount(At(g, row, 1))
    ensures exists k :: 0 <= k < |CadRows(g, col, last)| && FromRow(g, col, row, k, CadRows(g, col, last)[k])
  {
    var k := |CadRows(g, col, row - 1)|;
    CadRowsLast(g, col, row);
    CadRowsGrow(g, col, row, last);
    var rs, upto := CadRows(g, col, last), CadRows(g, col, row);
    assert rs[..|upto|][k] == rs[k];
    assert FromRow(g, col, row, k, rs[k]);
  }

  /** The rows kept up to `a` begin the rows kept up to any `b >= a`. */
  lemma {:induction false} CadRowsGrow(g: Grid, col: nat, a: int, b: int)
    requires a <= b
    ensures |CadRows(g, col, a)| <= |CadRows(g, col, b)|
    ensures CadRows(g, col, b)[..|CadRows(g, col, a)|] == CadRows(g, col, a)
    decreases b - a
  {
    if a < b {
      CadRowsGrow(g, col, a, b - 1);
      if b >= 5 {
        CadRowsStepPrefix(g, col, b);
        var sa, sm, sb := CadRows(g, col, a), CadRows(g, col, b - 1), CadRows(g, col, b);
        assert sb[..|sa|] == sb[..|sm|][..|sa|];
      }
    }
  }

  lemma CadRowsStepPrefix(g: Grid, col: nat, last: int)
    requires last >= 5
    ensures |CadRows(g, col, last - 1)| <= |CadRows(g, col, last)|
    ensures CadRows(g, col, last)[..|CadRows(g, col, last - 1)|] == CadRows(g, col, last - 1)
  {
    var front := CadRows(g, col, last - 1);
    CadRowsKept(g, col, last, front);
    CadRowsSkipped(g, col, last, front);
  }

  lemma CadRowsKeepsEarlier(g: Grid, col: nat, last: int, k: nat)
    requires last >= 5 && k < |CadRows(g, col, last - 1)|
    ensures k < |CadRows(g, col, last)| && CadRows(g, col, last)[k] == CadRows(g, col, last - 1)[k]
  {
    var front := CadRows(g, col, last - 1);
    CadRowsKept(g, col, last, front);
    CadRowsSkipped(g, col, last, front);
  }

  lemma CadRowsLast(g: Grid, col: nat, last: int)
    requires last >= 5 && KeptAccount(At(g, last, 1))
    ensures |CadRows(g, col, last - 1)| < |CadRows(g, col, last)|
    ensures FromRow(g, col, last, |CadRows(g, col, last - 1)|, CadRows(g, col, last)[|CadRows(g, col, last - 1)|])
  {
    var front := CadRows(g, col, last - 1);
    CadRowsKept(g, col, last, front);
  }

  /** A kept row is appended to the rows before it. */
  lemma CadRowsKept(g: Grid, col: nat, last: int, front: seq<CadRow>)
    requires last >= 5 && front == CadRows(g, col, last - 1)
    ensures KeptAccount(At(g, last, 1)) ==> CadRows(g, col, last) == front + [Entry(g, col, last, |front| + 1)]
  {
  }

  /** Any other row adds nothing. */
  lemma CadRowsSkipped(g: Grid, col: nat, last: int, front: seq<CadRow>)
    requires last >= 5 && front == CadRows(g, col, last - 1)
    ensures !KeptAccount(At(g, last, 1)) ==> CadRows(g, col, last) == front
  {
  }

  /** Lines 259-275: the loop over rows 5 to the last, counting `sn`. */
  method CleanRows(g: Grid, col: nat) returns (rows: seq<CadRow>)
    ensures rows == CadRows(g, col, MaxRow(g))
  {
    rows := [];
    var sn := 1;
    var r := 5;
    while r <= MaxRow(g)
      invariant 5 <= r <= MaxRow(g) + 1 || r == 5
      invariant rows == CadRows(g, col, r - 1) && sn == |rows| + 1
    {
      var acct := At(g, r, 1);
      if KeptAccount(acct) {
        rows := rows + [Entry(g, col, r, sn)];
        sn := sn + 1;
      }
      r := r + 1;
    }
  }

  /** Lines 235-279 `clean_cad_data` up to the sheet written, with the
      user's answer to the month prompt as `useLast`: the month's name and
      the kept rows, or the error that ends the run. */
  method CleanCadData(g: Grid, month: string, useLast: bool) returns (r: Result<(Cell, seq<CadRow>)>)
    ensures MonthColumn(g, month, useLast).Err? ==> r.Err?
    ensures MonthColumn(g, month, useLast).Ok? ==>
      var rows := CadRows(g, MonthColumn(g, month, useLast).value.1, MaxRow(g));
      r == if rows == [] then Err("No valid 6-digit accounts in CA.") else Ok((MonthColumn(g, month, useLast).value.0, rows))
  {
    var mc := MonthColumn(g, month, useLast);
    if mc.Err? {
      return Err(mc.error);
    }
    var rows := CleanRows(g, mc.value.1);
    if rows == [] {
      return Err("No valid 6-digit accounts in CA.");
    }
    return Ok((mc.value.0, rows));
  }

  lemma NoneKeptStep(g: Grid, last: int)
    requires !KeptAccount(At(g, last, 1))
    ensures (forall row :: 5 <= row <= last ==> !KeptAccount(At(g, row, 1)))
      <==> (forall row :: 5 <= row <= last - 1 ==> !KeptAccount(At(g, row, 1)))
  {
    if forall row :: 5 <= row <= last - 1 ==> !KeptAccount(At(g, row, 1)) {
      forall row | 5 <= row <= last
        ensures !KeptAccount(At(g, row, 1))
      {
        if row == last {
        } else {
          assert row <= last - 1;
        }
      }
    }
  }

  /** The run fails on the rows exactly when no row of the sheet has a
      six-digit account. */
  lemma {:induction false} CadRowsEmpty(g: Grid, col: nat, last: int)
    ensures CadRows(g, col, last) == [] <==> forall row :: 5 <= row <= last ==> !KeptAccount(At(g, row, 1))
    decreases last
  {
    if last >= 5 {
      var front := CadRows(g, col, last - 1);
      CadRowsEmpty(g, col, last - 1);
      if KeptAccount(At(g, last, 1)) {
        CadRowsKept(g, col, last, front);
        assert CadRows(g, col, last) != [];
      } else {
        CadRowsSkipped(g, col, last, front);
        NoneKeptStep(g, last);
      }
    }
  }
}
