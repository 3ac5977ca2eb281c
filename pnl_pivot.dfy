/** The "PnL Pivot" sheet: the CK PnL, CK VM and Project VM summary blocks,
    whose cells are SUMIFS/SUMIF formulas over the Database sheet, and the
    Comparison block, whose cells add or subtract the matching cells of the
    CK VM and Project VM blocks. */
module PnlPivot {
  import opened Wrappers
  import opened Strings
  import opened Ordering
  import opened Calendar
  import opened Cells
  import opened Sheets
  import opened Seqs

  // ---------------------------------------------------------------- basins

  /** Lines 28-32: the spellings that mean "Corporate". */
  const Aliases: seq<string> := ["CORP", "CORPORATE", "CORP."]

  /** Lines 34-39 `_canonical`. */
  function Canonical(basin: Option<string>): (r: string)
    ensures basin.None? ==> r == ""
    ensures Trimmed(r)
  {
    match basin
    case None => ""
    case Some(s) => if Upper(Strip(s)) in Aliases then "Corporate" else Strip(s)
  }

  /** A name becomes "Corporate" exactly when, stripped and upper-cased, it
      is one of the aliases; any other name keeps its stripped text. */
  lemma CanonicalCorporate(s: string)
    ensures Canonical(Some(s)) == "Corporate" <==> Upper(Strip(s)) in Aliases
    ensures Upper(Strip(s)) !in Aliases ==> Canonical(Some(s)) == Strip(s)
  {
    CorporateIsAlias();
  }

  /** "Corporate" is itself one of its aliases once upper-cased. */
  lemma CorporateIsAlias()
    ensures Upper("Corporate") in Aliases
  {
    assert Upper("Corporate") == "CORPORATE";
  }

  /** Canonical names are their own canonical names. */
  lemma CanonicalIdempotent(b: Option<string>)
    ensures Canonical(Some(Canonical(b))) == Canonical(b)
  {
    var c := Canonical(b);
    StripTrimmed(c);
    CorporateIsAlias();
  }

  // ---------------------------------------------------------------- lists

  /** The values of column `c`, rows `first .. last`. */
  function ColumnCells(g: Grid, c: int, first: int, last: int): (cs: seq<Cell>)
    ensures |cs| == if last >= first then last - first + 1 else 0
    ensures forall i :: 0 <= i < |cs| ==> cs[i] == At(g, first + i, c)
  {
    if last < first then [] else seq(last - first + 1, i requires 0 <= i <= last - first => At(g, first + i, c))
  }

  /** `.dropna().astype(str)`: the text of every value but the blanks.  The
      text of a float is not modelled, so floats are left out too. */
  function Texts(cs: seq<Cell>): (ts: seq<string>)
    ensures forall t :: t in ts <==> exists i :: 0 <= i < |cs| && !cs[i].Empty? && PyStr(cs[i]) == Some(t)
  {
    if cs == [] then []
    else
      var init := cs[..|cs| - 1];
      var c := cs[|cs| - 1];
      var front := Texts(init);
      assert forall i :: 0 <= i < |init| ==> init[i] == cs[i];
      if !c.Empty? && PyStr(c).Some? then front + [PyStr(c).value] else front
  }

  /** Line 105: a Project VM basin value other than `None`, "" and " ".
      The text of a float is not modelled, so floats are left out too. */
  predicate VmKept(c: Cell) {
    c != Empty && c != Text("") && c != Text(" ") && !c.Num?
  }

  /** The text of every kept value, in order. */
  function VmTexts(cs: seq<Cell>): (ts: seq<string>)
    ensures forall t :: t in ts <==> exists i :: 0 <= i < |cs| && VmKept(cs[i]) && PyStr(cs[i]) == Some(t)
  {
    if cs == [] then []
    else
      var init := cs[..|cs| - 1];
      var c := cs[|cs| - 1];
      var front := VmTexts(init);
      assert forall i :: 0 <= i < |init| ==> init[i] == cs[i];
      if VmKept(c) then front + [PyStr(c).value] else front
  }

  /** Line 104 `str(b).strip()`, element by element. */
  function Stripped(ts: seq<string>): (us: seq<string>)
    ensures |us| == |ts| && forall i :: 0 <= i < |ts| ==> us[i] == Strip(ts[i])
  {
    seq(|ts|, i requires 0 <= i < |ts| => Strip(ts[i]))
  }

  /** Lines 63 and 72: the basin and month columns the formulas filter on. */
  const CkBasinCol: nat := 127
  const CkMonthCol: nat := 132
  const VmBasinCol: nat := 43

  /** Line 98: the CK basins, read from the CK column headed "Basin",
      sorted and distinct. */
  function CkBasins(db: Grid, basinCol: nat): seq<string> {
    SortedDistinct(Texts(ColumnCells(db, basinCol, 3, MaxRow(db))))
  }

  /** Lines 99-106: the Project VM basins, sorted and distinct. */
  function VmBasins(db: Grid): seq<string> {
    SortedDistinct(Stripped(VmTexts(ColumnCells(db, VmBasinCol, 3, MaxRow(db)))))
  }

  /** Lines 108-109: the greatest label of the CK column headed "M-Y", ""
      when there is none. */
  function LatestMonth(db: Grid, myCol: nat): (r: string)
    ensures var labels := Texts(ColumnCells(db, myCol, 3, MaxRow(db)));
      && (labels == [] ==> r == "")
      && (labels != [] ==> r in labels && forall t :: t in labels ==> t == r || Less(t, r))
  {
    var labels := Texts(ColumnCells(db, myCol, 3, MaxRow(db)));
    var months := SortedDistinct(labels);
    if labels == [] then ""
    else
      assert labels[0] in months;
      forall t | t in labels
        ensures t == months[|months| - 1] || Less(t, months[|months| - 1])
      {
        LastIsGreatest(months, t);
      }
      months[|months| - 1]
  }

  // ---------------------------------------------------------------- CAD/USD rate

  const FxDateCol: nat := 123
  const FxRateCol: nat := 124

  /** Line 205: a date as its `"%b-%y"` label, any other value as its
      stripped text (`None` reads "None").  Floats are not modelled. */
  function DateLabel(c: Cell): Option<string> {
    match c
    case Stamp(y, m, _) => if 1 <= m <= 12 then Some(MonthLabel(y, m)) else None
    case _ => match PyStr(c) case Some(t) => Some(Strip(t)) case None => None
  }

  /** The first row from `r` up to `last` whose date label is `month`;
      `labels` reads the label of a row. */
  function FirstRow(labels: int -> Option<string>, month: string, r: int, last: int): (m: Option<int>)
    ensures m.Some? ==> r <= m.value <= last && labels(m.value) == Some(month)
    ensures m.Some? ==> forall k :: r <= k < m.value ==> labels(k) != Some(month)
    ensures m.None? ==> forall k :: r <= k <= last ==> labels(k) != Some(month)
    decreases last + 1 - r
  {
    if r > last then None
    else if labels(r) == Some(month) then Some(r)
    else FirstRow(labels, month, r + 1, last)
  }

  /** The bottom-most row from `r` up to row 3 whose rate `float` accepts;
      `rates` reads the rate of a row. */
  function LastRow(rates: int -> Option<real>, r: int): (m: Option<int>)
    ensures m.Some? ==> 3 <= m.value <= r && rates(m.value).Some?
    ensures m.Some? ==> forall j :: m.value < j <= r ==> rates(j).None?
    ensures m.None? ==> forall k :: 3 <= k <= r ==> rates(k).None?
    decreases r
  {
    if r < 3 then None
    else if rates(r).Some? then Some(r)
    else LastRow(rates, r - 1)
  }

  /** The bottom-most rate `float` accepts, 1.0 when there is none. */
  function Fallback(rates: int -> Option<real>, last: int): real {
    match LastRow(rates, last) case Some(k) => rates(k).value case None => 1.0
  }

  /** The rate of the month's first row when `float` accepts it; otherwise
      the fallback. */
  function RateOf(labels: int -> Option<string>, rates: int -> Option<real>, last: int, month: string): real {
    match FirstRow(labels, month, 3, last)
    case Some(m) => if rates(m).Some? then rates(m).value else Fallback(rates, last)
    case None => Fallback(rates, last)
  }

  /** The month label of each row of the FX Date column. */
  function LabelColumn(g: Grid): int -> Option<string> {
    k => DateLabel(At(g, k, FxDateCol))
  }

  /** The `float` of each row of the CAD/USD column. */
  function RateColumn(g: Grid): int -> Option<real> {
    k => FloatOf(At(g, k, FxRateCol))
  }

  /** Lines 200-216, over the FX Date and CAD/USD columns of the sheet. */
  function CadUsdRate(g: Grid, month: string): real {
    RateOf(LabelColumn(g), RateColumn(g), MaxRow(g), month)
  }

  /** Lines 200-216 `_find_cad_usd_rate`. */
  method FindCadUsdRate(g: Grid, month: string) returns (rate: real)
    ensures rate == CadUsdRate(g, month)
  {
    rate := ScanRate(LabelColumn(g), RateColumn(g), MaxRow(g), month);
  }

  /** The two loops of `_find_cad_usd_rate`, reading each row's label and
      rate through `labels` and `rates`: down from row 3 to the month's
      first row, whose rate is taken when `float` accepts it; otherwise up
      from `last` to the first rate `float` accepts; 1.0 when there is
      none. */
  method ScanRate(labels: int -> Option<string>, rates: int -> Option<real>, last: int, month: string)
    returns (rate: real)
    ensures rate == RateOf(labels, rates, last, month)
  {
    var r := 3;
    while r <= last
      invariant 3 <= r <= last + 1 || r == 3
      invariant FirstRow(labels, month, 3, last) == FirstRow(labels, month, r, last)
    {
      if labels(r) == Some(month) {
        var v := rates(r);
        if v.Some? {
          return v.value;
        }
        break;
      }
      r := r + 1;
    }
    r := last;
    while r >= 3
      invariant r <= last
      invariant LastRow(rates, last) == LastRow(rates, r)
    {
      var v := rates(r);
      if v.Some? {
        return v.value;
      }
      r := r - 1;
    }
    return 1.0;
  }

  // ---------------------------------------------------------------- block formulas

  /** What one of the three summary blocks is and where its formulas look:
      the field list, the Database column of each field, the basin and
      month columns, the last Database row, whether the month of `$B$2`
      filters the sum, and the cell holding CAD/USD when CA is converted. */
  datatype BlockSpec = BlockSpec(
    title: string, fields: seq<string>, colMap: map<string, nat>,
    basinCol: nat, myCol: nat, lastDbRow: nat, useMonth: bool, fxCell: Option<(nat, nat)>)

  predicate Mapped(b: BlockSpec) {
    forall f :: f in b.fields ==> f in b.colMap
  }

  /** `$B$2` and `$Z$2`, as (column, row). */
  const MonthCell: (nat, nat) := (2, 2)
  const FxCell: (nat, nat) := (26, 2)

  /** Lines 245-255: the sum of the field's column over the rows of the
      basin in `$A{r}`, and of the month in `$B$2` when the month filters. */
  function BaseFormula(b: BlockSpec, dataCol: nat, r: nat): Expr {
    if b.useMonth then
      SumIfs("Database", dataCol, 3, b.lastDbRow,
        [Criterion(b.myCol, Ref(MonthCell.0, MonthCell.1)), Criterion(b.basinCol, Ref(1, r))])
    else SumIf("Database", b.basinCol, 3, b.lastDbRow, Ref(1, r), dataCol)
  }

  /** Lines 256-257: divided by the rate cell for the basin "CA" when the
      block converts. */
  function FieldFormula(b: BlockSpec, dataCol: nat, r: nat): Expr {
    var base := BaseFormula(b, dataCol, r);
    match b.fxCell
    case Some(fx) => IfTextEq(Ref(1, r), "CA", Div(base, Ref(fx.0, fx.1)), base)
    case None => base
  }

  /** The value of a cell in arithmetic: blank is 0, text is #VALUE!. */
  function CellNumber(c: Cell): Option<real> {
    match c
    case Empty => Some(0.0)
    case Int(i) => Some(i as real)
    case Num(x) => Some(x)
    case _ => None
  }

  /** What SUM adds of a cell: numbers; text and blanks count nothing. */
  function Summand(c: Cell): real {
    match c
    case Int(i) => i as real
    case Num(x) => x
    case _ => 0.0
  }

  /** A Database row `r` meets every (column, value) criterion. */
  predicate MeetsAll(db: Grid, r: int, crits: seq<(nat, Cell)>) {
    forall k :: 0 <= k < |crits| ==> At(db, r, crits[k].0) == crits[k].1
  }

  /** SUMIFS over Database rows `first .. last`: the values of column
      `sumCol` in the rows meeting every criterion.  A criterion matches a
      cell equal to it. */
  function MatchSum(db: Grid, sumCol: nat, first: int, last: int, crits: seq<(nat, Cell)>): real
    decreases last - first
  {
    if last < first then 0.0
    else MatchSum(db, sumCol, first, last - 1, crits) + if MeetsAll(db, last, crits) then Summand(At(db, last, sumCol)) else 0.0
  }

  /** The criteria of a SUMIFS, read from the pivot sheet; only references
      are criteria here. */
  function CritValues(crits: seq<Criterion>, here: (nat, nat) -> Cell): Option<seq<(nat, Cell)>> {
    if crits == [] then Some([])
    else if !crits[0].value.Ref? then None
    else match CritValues(crits[1..], here)
      case Some(rest) => Some([(crits[0].col, here(crits[0].value.col, crits[0].value.row))] + rest)
      case None => None
  }

  /** The value of a block formula, given the Database sheet and the values
      `here` of the pivot sheet's own cells; `None` for #DIV/0!, #VALUE!
      and the forms the blocks do not write. */
  function BlockEval(e: Expr, db: Grid, here: (nat, nat) -> Cell): Option<real> {
    match e
    case Lit(v) => Some(v)
    case Ref(c, r) => CellNumber(here(c, r))
    case Div(a, d) =>
      (match (BlockEval(a, db, here), BlockEval(d, db, here))
       case (Some(x), Some(y)) => if y == 0.0 then None else Some(x / y)
       case _ => None)
    case SumIfs(sheet, sumCol, first, last, crits) =>
      if sheet != "Database" then None
      else (match CritValues(crits, here) case Some(cv) => Some(MatchSum(db, sumCol, first, last, cv)) case None => None)
    case SumIf(sheet, critCol, first, last, crit, sumCol) =>
      if sheet != "Database" then None
      else (match crit
        case Ref(c, r) => Some(MatchSum(db, sumCol, first, last, [(critCol, here(c, r))]))
        case _ => None)
    case IfTextEq(test, text, yes, no) =>
      (match test
       case Ref(c, r) => if here(c, r) == Text(text) then BlockEval(yes, db, here) else BlockEval(no, db, here)
       case _ => None)
    case _ => None
  }

  /** The sum a block cell shows: the field's Database values over the rows
      of the basin (and of the month of `$B$2` when the month filters). */
  function BlockTotal(b: BlockSpec, db: Grid, dataCol: nat, basin: string, month: Cell): real {
    if b.useMonth then MatchSum(db, dataCol, 3, b.lastDbRow, [(b.myCol, month), (b.basinCol, Text(basin))])
    else MatchSum(db, dataCol, 3, b.lastDbRow, [(b.basinCol, Text(basin))])
  }

  /** The value of a field cell of basin row `r`: the basin's (and month's)
      Database sum, divided by the rate for "CA" when the block converts. */
  lemma FieldValue(b: BlockSpec, db: Grid, here: (nat, nat) -> Cell, dataCol: nat, r: nat, basin: string, fx: real)
    requires here(1, r) == Text(basin)
    requires b.fxCell.Some? ==> here(b.fxCell.value.0, b.fxCell.value.1) == Num(fx)
    ensures var total := BlockTotal(b, db, dataCol, basin, here(MonthCell.0, MonthCell.1));
      BlockEval(FieldFormula(b, dataCol, r), db, here) ==
        if b.fxCell.Some? && basin == "CA" then (if fx == 0.0 then None else Some(total / fx))
        else Some(total)
  {
    var base := BaseFormula(b, dataCol, r);
    var month := here(MonthCell.0, MonthCell.1);
    if b.useMonth {
      var crits := [Criterion(b.myCol, Ref(MonthCell.0, MonthCell.1)), Criterion(b.basinCol, Ref(1, r))];
      var rest := [Criterion(b.basinCol, Ref(1, r))];
      assert crits[1..] == rest && rest[1..] == [];
      assert [(b.basinCol, Text(basin))] + [] == [(b.basinCol, Text(basin))];
      assert CritValues(rest, here) == Some([(b.basinCol, Text(basin))]);
      assert CritValues(crits, here) == Some([(b.myCol, month)] + [(b.basinCol, Text(basin))]);
      assert [(b.myCol, month)] + [(b.basinCol, Text(basin))] == [(b.myCol, month), (b.basinCol, Text(basin))];
    }
    var total := BlockTotal(b, db, dataCol, basin, month);
    assert BlockEval(base, db, here) == Some(total);
    if b.fxCell.Some? {
      var fc := b.fxCell.value;
      assert FieldFormula(b, dataCol, r) == IfTextEq(Ref(1, r), "CA", Div(base, Ref(fc.0, fc.1)), base);
      if basin == "CA" {
        assert BlockEval(Ref(fc.0, fc.1), db, here) == Some(fx);
      } else {
        assert here(1, r) != Text("CA");
      }
    }
  }

  // ---------------------------------------------------------------- block cells

  /** Lines 241-258: the basin, then one formula per field. */
  function DataRow(b: BlockSpec, basin: string, r: nat): (row: seq<Content>)
  {
    [Value(Text(basin))] + seq(|b.fields|, j requires 0 <= j < |b.fields| => Formula(FieldFormula(b, DataCol(b, b.fields[j]), r)))
  }

  /** `col_map[field]`; a field the map lacks is the KeyError `Mapped`
      rules out. */
  function DataCol(b: BlockSpec, f: string): nat {
    if f in b.colMap then b.colMap[f] else 0
  }

  function DataRows(b: BlockSpec, basins: seq<string>, first: nat): (rows: seq<seq<Content>>)
  {
    seq(|basins|, i requires 0 <= i < |basins| => DataRow(b, basins[i], first + i))
  }

  /** Lines 261-268: "Grand Total", then the sum of each field column over
      the data rows. */
  function TotalRow(n: nat, first: nat, last: nat): (row: seq<Content>)
    ensures |row| == n + 1 && row[0] == Value(Text("Grand Total"))
    ensures forall j :: 1 <= j <= n ==> row[j] == Formula(SumRange(j + 1, first, last))
  {
    [Value(Text("Grand Total"))] + seq(n, j requires 0 <= j < n => Formula(SumRange(j + 2, first, last)))
  }

  /** The cells a block fills from `start`: its title, one header row, one
      data row per basin and the total row below them. */
  function TableCells(start: nat, title: Content, heads: seq<Content>, rows: seq<seq<Content>>,
                      total: seq<Content>): map<(int, int), Content>
  {
    map[(start, 1) := title]
      + RowWrites(start + 1, 1, heads)
      + RowsWrites(start + 2, 1, rows)
      + RowWrites(start + 2 + |rows|, 1, total)
  }

  /** The block layout both writers share: title, header, data rows and
      total row, each starting in column 1. */
  method WriteTable(ws: Worksheet, start: nat, title: Content, heads: seq<Content>, rows: seq<seq<Content>>,
                    total: seq<Content>)
    requires ws.Valid() && start >= 1
    modifies ws
    ensures ws.Valid() && ws.title == old(ws.title)
    ensures ws.cells == old(ws.cells) + TableCells(start, title, heads, rows, total)
  {
    ghost var c0 := ws.cells;
    WriteHead(ws, start, title, heads);
    ghost var c2 := ws.cells;
    WriteBody(ws, start + 2, rows, total);
    TableChain(c0, c0[(start, 1) := title], c2, c2 + RowsWrites(start + 2, 1, rows), ws.cells,
      start, title, heads, rows, total);
  }

  /** The title cell and the header row of a block. */
  method WriteHead(ws: Worksheet, start: nat, title: Content, heads: seq<Content>)
    requires ws.Valid() && start >= 1
    modifies ws
    ensures ws.Valid() && ws.title == old(ws.title)
    ensures ws.cells == old(ws.cells)[(start, 1) := title] + RowWrites(start + 1, 1, heads)
  {
    ws.Put(start, 1, title);
    ws.PutRow(start + 1, 1, heads);
  }

  /** The data rows of a block from row `first`, then its total row. */
  method WriteBody(ws: Worksheet, first: nat, rows: seq<seq<Content>>, total: seq<Content>)
    requires ws.Valid() && first >= 1
    modifies ws
    ensures ws.Valid() && ws.title == old(ws.title)
    ensures ws.cells == old(ws.cells) + RowsWrites(first, 1, rows) + RowWrites(first + |rows|, 1, total)
  {
    ws.PutRows(first, 1, rows);
    ws.PutRow(first + |rows|, 1, total);
  }

  lemma TableChain(c0: map<(int, int), Content>, c1: map<(int, int), Content>, c2: map<(int, int), Content>,
                   c3: map<(int, int), Content>, c4: map<(int, int), Content>,
                   start: nat, title: Content, heads: seq<Content>, rows: seq<seq<Content>>, total: seq<Content>)
    requires c1 == c0[(start, 1) := title]
    requires c2 == c1 + RowWrites(start + 1, 1, heads)
    requires c3 == c2 + RowsWrites(start + 2, 1, rows)
    requires c4 == c3 + RowWrites(start + 2 + |rows|, 1, total)
    ensures c4 == c0 + TableCells(start, title, heads, rows, total)
  {
    var m: map<(int, int), Content> := map[(start, 1) := title];
    var h, d, t := RowWrites(start + 1, 1, heads), RowsWrites(start + 2, 1, rows), RowWrites(start + 2 + |rows|, 1, total);
    UpdateAsUnion(c0, (start as int, 1), title);
    UnionAssoc(c0, m, h);
    UnionAssoc(c0, m + h, d);
    UnionAssoc(c0, m + h + d, t);
  }

  lemma UpdateAsUnion<K, V>(a: map<K, V>, k: K, v: V)
    ensures a[k := v] == a + map[k := v]
  {
  }

  /** The cells of a P&L block from `start`. */
  function BlockCells(b: BlockSpec, start: nat, basins: seq<string>): map<(int, int), Content>
  {
    TableCells(start, Value(Text(b.title)), TextCells(["Basin"] + b.fields), DataRows(b, basins, start + 2),
      TotalRow(|b.fields|, start + 2, start + 1 + |basins|))
  }

  /** Lines 220-270 `_write_block`: the cells, and the row after the total
      row. */
  method WriteBlock(ws: Worksheet, b: BlockSpec, start: nat, basins: seq<string>) returns (next: nat)
    requires ws.Valid() && start >= 1 && (basins == [] || Mapped(b))
    modifies ws
    ensures ws.Valid() && ws.title == old(ws.title)
    ensures ws.cells == old(ws.cells) + BlockCells(b, start, basins)
    ensures next == start + |basins| + 3
  {
    var rows := DataRows(b, basins, start + 2);
    WriteTable(ws, start, Value(Text(b.title)), TextCells(["Basin"] + b.fields), rows,
      TotalRow(|b.fields|, start + 2, start + 1 + |basins|));
    next := start + |basins| + 3;
  }

  /** In a table's cells, data row `i` holds `rows[i]` from column 1 on
      and the total row holds `total`. */
  lemma TableLayout(start: nat, title: Content, heads: seq<Content>, rows: seq<seq<Content>>, total: seq<Content>,
                    i: nat, c: nat, k: nat)
    requires i < |rows| && c < |rows[i]| && k < |total|
    ensures var cells := TableCells(start, title, heads, rows, total);
      && (start + 2 + i, c + 1) in cells && cells[(start + 2 + i, c + 1)] == rows[i][c]
      && (start + 2 + |rows|, k + 1) in cells && cells[(start + 2 + |rows|, k + 1)] == total[k]
  {
    var d := RowsWrites(start + 2, 1, rows);
    var g := RowWrites(start + 2 + |rows|, 1, total);
    RowsWritesAt(start + 2, 1, rows, i, c);
    RowWritesKeys(start + 2 + |rows|, 1, total);
    RowWritesAt(start + 2 + |rows|, 1, total, k);
    assert (start + 2 + i, c + 1) !in g;
  }

  /** In the cells of a block, a field cell of basin row `i` holds its
      formula, and the total of field `j` sums exactly the basin rows. */
  lemma BlockLayout(b: BlockSpec, start: nat, basins: seq<string>, i: nat, j: nat)
    requires Mapped(b) && i < |basins| && j < |b.fields|
    ensures var cells := BlockCells(b, start, basins);
      && (start + 2 + i, j + 2) in cells
      && cells[(start + 2 + i, j + 2)] == Formula(FieldFormula(b, b.colMap[b.fields[j]], start + 2 + i))
      && (start + 2 + |basins|, j + 2) in cells
      && cells[(start + 2 + |basins|, j + 2)] == Formula(SumRange(j + 2, start + 2, start + 1 + |basins|))
  {
    var rows := DataRows(b, basins, start + 2);
    var total := TotalRow(|b.fields|, start + 2, start + 1 + |basins|);
    assert rows[i] == DataRow(b, basins[i], start + 2 + i);
    TableLayout(start, Value(Text(b.title)), TextCells(["Basin"] + b.fields), rows, total, i, j + 1, j + 1);
  }

  // ---------------------------------------------------------------- comparison

  /** Line 75: the revenue fields, subtracted in the comparison. */
  const RevenueFields: seq<string> := ["SERVICE REV", "PROP REV", "TRUCK REV", "CHEM REV", "FUEL REV"]

  /** Lines 303-308: the CK cell and the VM cell of the same column, or 0
      for a basin the block lacks; revenue is CK - VM, the rest CK + VM. */
  function CompareFormula(field: string, col: nat, ckRow: Option<nat>, vmRow: Option<nat>): Expr {
    if field in RevenueFields then Sub(SideRef(col, ckRow), SideRef(col, vmRow))
    else Add(SideRef(col, ckRow), SideRef(col, vmRow))
  }

  /** The cell of one block's row, or "0" when the block lacks the basin. */
  function SideRef(col: nat, row: Option<nat>): Expr {
    if row.Some? then Ref(col, row.value) else Lit(0.0)
  }

  /** The value a block cell contributes: the cell, or 0 without a row. */
  function Side(env: (nat, nat) -> real, col: nat, row: Option<nat>): real {
    if row.Some? then env(col, row.value) else 0.0
  }

  lemma SideValue(col: nat, row: Option<nat>, env: (nat, nat) -> real)
    ensures Eval(SideRef(col, row), env) == Some(Side(env, col, row))
  {
  }

  /** The sign rule: revenue shows CK - VM and every other field CK + VM,
      with 0 for the side that lacks the basin. */
  lemma CompareValue(field: string, col: nat, ckRow: Option<nat>, vmRow: Option<nat>, env: (nat, nat) -> real)
    ensures Eval(CompareFormula(field, col, ckRow, vmRow), env) == Some(
      if field in RevenueFields then Side(env, col, ckRow) - Side(env, col, vmRow)
      else Side(env, col, ckRow) + Side(env, col, vmRow))
  {
    SideValue(col, ckRow, env);
    SideValue(col, vmRow, env);
  }

  /** `row_map.get(canon)`. */
  function Lookup(m: map<string, nat>, k: string): Option<nat> {
    if k in m then Some(m[k]) else None
  }

  /** Lines 294-310: the basin, then one comparison per field. */
  function CompareRow(fields: seq<string>, canon: string, ckMap: map<string, nat>, vmMap: map<string, nat>): (row: seq<Content>)
    ensures |row| == |fields| + 1 && row[0] == Value(Text(canon))
    ensures forall j :: 0 <= j < |fields| ==>
      row[j + 1] == Formula(CompareFormula(fields[j], j + 2, Lookup(ckMap, canon), Lookup(vmMap, canon)))
  {
    [Value(Text(canon))] + seq(|fields|, j requires 0 <= j < |fields| =>
      Formula(CompareFormula(fields[j], j + 2, Lookup(ckMap, canon), Lookup(vmMap, canon))))
  }

  function CompareRows(fields: seq<string>, basins: seq<string>, ckMap: map<string, nat>, vmMap: map<string, nat>): (rows: seq<seq<Content>>)
    ensures |rows| == |basins| && forall i :: 0 <= i < |basins| ==> rows[i] == CompareRow(fields, basins[i], ckMap, vmMap)
  {
    seq(|basins|, i requires 0 <= i < |basins| => CompareRow(fields, basins[i], ckMap, vmMap))
  }

  function CompareCells(title: string, start: nat, basins: seq<string>, fields: seq<string>,
                        ckMap: map<string, nat>, vmMap: map<string, nat>): map<(int, int), Content> {
    TableCells(start, Value(Text(title)), TextCells(["Basin"] + fields), CompareRows(fields, basins, ckMap, vmMap),
      TotalRow(|fields|, start + 2, start + 1 + |basins|))
  }

  /** Lines 273-322 `_write_comparison_block`. */
  method WriteComparisonBlock(ws: Worksheet, title: string, start: nat, basins: seq<string>, fields: seq<string>,
                              ckMap: map<string, nat>, vmMap: map<string, nat>) returns (next: nat)
    requires ws.Valid() && start >= 1
    modifies ws
    ensures ws.Valid() && ws.title == old(ws.title)
    ensures ws.cells == old(ws.cells) + CompareCells(title, start, basins, fields, ckMap, vmMap)
    ensures next == start + |basins| + 3
  {
    var rows := CompareRows(fields, basins, ckMap, vmMap);
    WriteTable(ws, start, Value(Text(title)), TextCells(["Basin"] + fields), rows,
      TotalRow(|fields|, start + 2, start + 1 + |basins|));
    next := start + |basins| + 3;
  }

  // ---------------------------------------------------------------- row maps

  /** Lines 180-183: each canonical name to its worksheet row, counting
      from `row0`; a later basin with the same canonical name overwrites an
      earlier one.  `names` are the canonical names of the block's basins,
      in order. */
  function RowMap(names: seq<string>, row0: nat): (m: map<string, nat>)
    ensures forall k :: k in m <==> k in names
  {
    if names == [] then map[]
    else
      var n := |names| - 1;
      assert names == names[..n] + [names[n]];
      RowMap(names[..n], row0)[names[n] := row0 + n]
  }

  /** Each name maps to the row of its last occurrence. */
  lemma {:induction false} RowMapRow(names: seq<string>, row0: nat, i: nat)
    requires i < |names|
    requires forall j :: i < j < |names| ==> names[j] != names[i]
    ensures RowMap(names, row0)[names[i]] == row0 + i
  {
    var n := |names| - 1;
    if i < n {
      var init := names[..n];
      assert forall j :: i < j < n ==> init[j] == names[j];
      RowMapRow(init, row0, i);
      assert init[i] == names[i];
    }
  }

  /** Line 186: the names of either map, sorted and distinct. */
  function ComparisonBasins(ckNames: seq<string>, vmNames: seq<string>): (r: seq<string>)
    ensures StrictlySorted(r)
    ensures forall k :: k in r <==> k in ckNames || k in vmNames
  {
    SortedDistinct(ckNames + vmNames)
  }

  /** The canonical names, in order. */
  function Canonicals(basins: seq<string>): (cs: seq<string>)
    ensures |cs| == |basins| && forall i :: 0 <= i < |basins| ==> cs[i] == Canonical(Some(basins[i]))
  {
    seq(|basins|, i requires 0 <= i < |basins| => Canonical(Some(basins[i])))
  }


  // ---------------------------------------------------------------- the sheet

  /** Lines 42-47. */
  const PnlFields: seq<string> := [
    "Total Revenue", "Total Variable Cost", "R&M & Reclass (Net)", "Personnel Cost & Reclass (Net)",
    "District Costs & Reclass (Net)", "Gross Margin", "Total G&A", "Corporate - Manual Allocation", "EBITDA"]

  /** Lines 49-53; the Project VM block uses the same list (line 66). */
  const CkFields: seq<string> := [
    "SERVICE REV", "PROP REV", "TRUCK REV", "CHEM REV", "FUEL REV",
    "PROP COST", "TRUCK COST", "CHEM COST", "FUEL COST", "MAT COST", "OTHER PAD COST", "ALLOC VM COST"]

  /** Lines 54-64: the CK columns of the Database sheet. */
  const CkColumns: map<string, nat> := map[
    "SERVICE REV" := 134, "PROP REV" := 135, "TRUCK REV" := 136, "CHEM REV" := 137, "FUEL REV" := 138,
    "PROP COST" := 140, "TRUCK COST" := 141, "CHEM COST" := 142, "FUEL COST" := 144, "MAT COST" := 143,
    "OTHER PAD COST" := 145, "ALLOC VM COST" := 146]

  /** Lines 67-73: the Project VM columns. */
  const VmColumns: map<string, nat> := map[
    "SERVICE REV" := 45, "PROP REV" := 46, "TRUCK REV" := 47, "CHEM REV" := 48, "FUEL REV" := 49,
    "PROP COST" := 50, "TRUCK COST" := 51, "CHEM COST" := 52, "FUEL COST" := 53, "MAT COST" := 54,
    "OTHER PAD COST" := 55, "ALLOC VM COST" := 56]

  /** Lines 15-16 and 87-88: the CK block spans columns DW (127) .. HG
      (215); the comment on line 14 gives HG as 208, the code reads HG. */
  const CkFirstCol: nat := 127
  const CkLastCol: nat := 215

  /** Lines 87-91: the headers of the CK block, row 2. */
  function CkHeaders(db: Grid): (hs: seq<Cell>)
    ensures |hs| == CkLastCol - CkFirstCol + 1
    ensures forall j :: 0 <= j < |hs| ==> hs[j] == At(db, 2, CkFirstCol + j)
  {
    seq(CkLastCol - CkFirstCol + 1, j requires 0 <= j <= CkLastCol - CkFirstCol => At(db, 2, CkFirstCol + j))
  }

  /** `df_ck[name]`: the Database column of the first CK header `name`;
      `None` is the KeyError. */
  function CkColumn(db: Grid, name: string): (c: Option<nat>)
    ensures c.Some? ==> (CkFirstCol <= c.value <= CkLastCol && At(db, 2, c.value) == Text(name)
      && forall k :: CkFirstCol <= k < c.value ==> At(db, 2, k) != Text(name))
    ensures c.None? ==> forall k :: CkFirstCol <= k <= CkLastCol ==> At(db, 2, k) != Text(name)
  {
    var hs := CkHeaders(db);
    match IndexOf(hs, Text(name))
    case Some(i) =>
      assert forall k :: CkFirstCol <= k < CkFirstCol + i ==> hs[..i][k - CkFirstCol] == At(db, 2, k);
      Some(CkFirstCol + i)
    case None =>
      assert forall k :: CkFirstCol <= k <= CkLastCol ==> hs[k - CkFirstCol] == At(db, 2, k);
      None
  }

  /** How many CK headers read `name`: `df_ck[name]` is a column for one,
      a frame for several, and the KeyError for none. */
  function HeaderCount(db: Grid, name: string): (n: nat)
    ensures n == 0 <==> CkColumn(db, name).None?
  {
    multiset(CkHeaders(db))[Text(name)]
  }

  /** A header that occurs once is the column `CkColumn` finds, and no other. */
  lemma SingleHeader(db: Grid, name: string, k: nat)
    requires HeaderCount(db, name) == 1
    requires CkFirstCol <= k <= CkLastCol && At(db, 2, k) == Text(name)
    ensures k == CkColumn(db, name).value
  {
    var hs, c := CkHeaders(db), CkColumn(db, name).value;
    if k != c {
      TwoHits(hs, k - CkFirstCol, c - CkFirstCol, Text(name));
    }
  }

  /** Line 98 `basins_ck`: the sorted distinct texts of the single "Basin"
      column; when several CK headers read "Basin", `df_ck["Basin"]` is a
      frame, and iterating a frame yields its column label only. */
  function CkBasinNames(db: Grid): (ck: seq<string>)
    requires CkColumn(db, "Basin").Some?
    ensures HeaderCount(db, "Basin") > 1 ==> ck == ["Basin"]
    ensures HeaderCount(db, "Basin") == 1 ==> ck == CkBasins(db, CkColumn(db, "Basin").value)
  {
    if HeaderCount(db, "Basin") > 1 then ["Basin"] else CkBasins(db, CkColumn(db, "Basin").value)
  }

  /** Lines 325-328 `_header_to_letter_map`: each text header to its column
      from `start` on; a repeated header keeps its last column. */
  function HeaderColumns(headers: seq<Cell>, start: nat): map<string, nat>
  {
    if headers == [] then map[]
    else
      var n := |headers| - 1;
      match headers[n]
      case Text(s) => HeaderColumns(headers[..n], start)[s := start + n]
      case _ => HeaderColumns(headers[..n], start)
  }

  /** A header maps to the column of its last occurrence. */
  lemma {:induction false} HeaderColumnsLast(headers: seq<Cell>, start: nat, f: string)
    requires Text(f) in headers
    ensures var m := HeaderColumns(headers, start);
      && f in m && start <= m[f] < start + |headers| && headers[m[f] - start] == Text(f)
      && forall k :: m[f] - start < k < |headers| ==> headers[k] != Text(f)
  {
    var n := |headers| - 1;
    var init := headers[..n];
    if headers[n] != Text(f) {
      InInit(headers, Text(f));
      HeaderColumnsLast(init, start, f);
      HeaderColumnsKeep(headers, start, f);
      var j := HeaderColumns(init, start)[f] - start;
      assert headers[j] == init[j];
      forall k | j < k < |headers|
        ensures headers[k] != Text(f)
      {
        if k < n {
          assert headers[k] == init[k];
        }
      }
    } else {
      HeaderColumnsHit(headers, start, f);
    }
  }

  /** The keys are exactly the text headers. */
  lemma {:induction false} HeaderColumnsKeys(headers: seq<Cell>, start: nat)
    ensures forall f :: f in HeaderColumns(headers, start) <==> Text(f) in headers
  {
    if headers != [] {
      var n := |headers| - 1;
      HeaderColumnsKeys(headers[..n], start);
      assert headers == headers[..n] + [headers[n]];
    }
  }

  /** A last header `f` takes the last column. */
  lemma HeaderColumnsHit(headers: seq<Cell>, start: nat, f: string)
    requires headers != [] && headers[|headers| - 1] == Text(f)
    ensures f in HeaderColumns(headers, start)
    ensures HeaderColumns(headers, start)[f] == start + |headers| - 1
  {
  }

  /** A last header other than `f` leaves the column of `f` alone. */
  lemma HeaderColumnsKeep(headers: seq<Cell>, start: nat, f: string)
    requires headers != [] && headers[|headers| - 1] != Text(f)
    requires f in HeaderColumns(headers[..|headers| - 1], start)
    ensures f in HeaderColumns(headers, start)
    ensures HeaderColumns(headers, start)[f] == HeaderColumns(headers[..|headers| - 1], start)[f]
  {
  }

  /** The three summary blocks, lines 140-174. */
  function CkPnlBlock(db: Grid): BlockSpec {
    BlockSpec("CK PnL", PnlFields, HeaderColumns(CkHeaders(db), CkFirstCol), CkBasinCol, CkMonthCol, MaxRow(db), true, None)
  }

  function CkVmBlock(db: Grid): BlockSpec {
    BlockSpec("CK VM", CkFields, CkColumns, CkBasinCol, CkMonthCol, MaxRow(db), true, None)
  }

  function ProjectVmBlock(db: Grid): BlockSpec {
    BlockSpec("Project VM", CkFields, VmColumns, VmBasinCol, 0, MaxRow(db), false, Some(FxCell))
  }

  /** The start rows of the four blocks and the first data rows of CK VM
      and Project VM, as `row_ptr` is threaded through lines 137-193. */
  datatype Rows = Rows(ckPnl: nat, ckVm: nat, projectVm: nat, comparison: nat, ckData0: nat, vmData0: nat, end: nat)

  function PivotRows(nCk: nat, nVm: nat, nCmp: nat): Rows {
    var afterPnl := 4 + nCk + 3;
    var afterCkVm := afterPnl + 2 + nCk + 3;
    var afterVm := afterCkVm + 2 + nVm + 3;
    Rows(4, afterPnl + 2, afterCkVm + 2, afterVm + 2,
      afterCkVm - nCk - 2 + 1, afterVm - nVm - 2 + 1, afterVm + 2 + nCmp + 3)
  }

  /** Lines 160-161 and 175-176 find the first data row of CK VM and of
      Project VM back from the returned row: it is two rows below each
      block's title, where its first basin row is; and each block starts two
      rows below the previous block's total row. */
  lemma PivotRowsAgree(nCk: nat, nVm: nat, nCmp: nat)
    ensures var p := PivotRows(nCk, nVm, nCmp);
      && p.ckData0 == p.ckVm + 2 && p.vmData0 == p.projectVm + 2
      && p.ckVm == p.ckPnl + nCk + 3 + 2
      && p.projectVm == p.ckVm + nCk + 3 + 2
      && p.comparison == p.projectVm + nVm + 3 + 2
  {
  }

  /** The note in A1 (line 122). */
  const Note: string := "Select month in B2 \U{2013} CK tables auto\U{2011}recalc."

  /** The note, the month selector and the CAD/USD rate cell above the
      blocks (lines 122-130). */
  function SheetHead(month: string, rate: real): map<(int, int), Content> {
    map[(1, 1) := Value(Text(Note)), (2, 1) := Value(Text("M-Y")), (2, 2) := Value(Text(month)),
        (2, 26) := Value(Num(rate))]
  }

  /** The four blocks, for the CK basins `ck` and the VM basins `vm`. */
  function PivotBlocks(db: Grid, ck: seq<string>, vm: seq<string>): map<(int, int), Content> {
    var ckNames, vmNames := Canonicals(ck), Canonicals(vm);
    BlocksAt(CkPnlBlock(db), CkVmBlock(db), ProjectVmBlock(db), ck, vm, ckNames, vmNames,
      ComparisonBasins(ckNames, vmNames))
  }

  /** Three summary blocks over `ck`, `ck` and `vm`, then the comparison
      over `basins`, whose rows find the summary rows through the canonical
      names `ckNames` and `vmNames`. */
  function BlocksAt(pnl: BlockSpec, ckVm: BlockSpec, projectVm: BlockSpec, ck: seq<string>, vm: seq<string>,
                    ckNames: seq<string>, vmNames: seq<string>, basins: seq<string>): map<(int, int), Content> {
    var p := PivotRows(|ck|, |vm|, |basins|);
    BlockCells(pnl, p.ckPnl, ck)
      + BlockCells(ckVm, p.ckVm, ck)
      + BlockCells(projectVm, p.projectVm, vm)
      + CompareCells("Comparison", p.comparison, basins, CkFields,
          RowMap(ckNames, p.ckData0), RowMap(vmNames, p.vmData0))
  }

  /** Everything the new "PnL Pivot" sheet holds. */
  function PivotCells(db: Grid, ck: seq<string>, myCol: nat): map<(int, int), Content>
  {
    var month := LatestMonth(db, myCol);
    SheetHead(month, CadUsdRate(db, month)) + PivotBlocks(db, ck, VmBasins(db))
  }

  /** Lines 81-196 `generate_pnl_pivot`: the new sheet, or the error of a
      CK column the pivot needs: the KeyError of a missing "Basin" or "M-Y",
      the AttributeError of `.unique()` on a repeated "M-Y", or the KeyError
      of `col_map[field]` for a CK PnL field without a header, which the
      data-row loop of lines 241-243 meets only when there is a CK basin.
      The workbook is saved only at the end, so an error leaves nothing
      behind. */
  method GeneratePivot(db: Grid) returns (r: Result<Worksheet>)
    ensures r.Err? <==> (CkColumn(db, "Basin").None? || CkColumn(db, "M-Y").None?
      || HeaderCount(db, "M-Y") > 1
      || (CkBasinNames(db) != [] && !Mapped(CkPnlBlock(db))))
    ensures r.Ok? ==> (fresh(r.value) && r.value.Valid() && r.value.title == "PnL Pivot"
      && r.value.cells == PivotCells(db, CkBasinNames(db), CkColumn(db, "M-Y").value))
  {
    var basinCol := CkColumn(db, "Basin");
    if basinCol.None? {
      return Err("KeyError: 'Basin'");
    }
    var ck := CkBasinNames(db);
    var myCol := CkColumn(db, "M-Y");
    if myCol.None? {
      return Err("KeyError: 'M-Y'");
    }
    if HeaderCount(db, "M-Y") > 1 {
      return Err("AttributeError: 'DataFrame' object has no attribute 'unique'");
    }
    if ck != [] && !Mapped(CkPnlBlock(db)) {
      return Err("KeyError: a CK PnL field has no header");
    }
    var vm := VmBasins(db);
    var latest := LatestMonth(db, myCol.value);
    var rate := FindCadUsdRate(db, latest);
    var ws := new Worksheet("PnL Pivot");
    ws.Put(1, 1, Value(Text(Note)));
    ws.Put(2, 1, Value(Text("M-Y")));
    ws.Put(2, 2, Value(Text(latest)));
    ws.Put(2, 26, Value(Num(rate)));
    assert ws.cells == SheetHead(latest, rate);
    FixedBlocksMapped(db);
    var ckNames, vmNames := Canonicals(ck), Canonicals(vm);
    WriteBlocks(ws, CkPnlBlock(db), CkVmBlock(db), ProjectVmBlock(db), ck, vm, ckNames, vmNames,
      ComparisonBasins(ckNames, vmNames));
    return Ok(ws);
  }

  /** Lines 137-193: the blocks one under the other, two rows apart, from
      row 4; each later block's position comes from the row the previous
      write returned. */
  method WriteBlocks(ws: Worksheet, pnl: BlockSpec, ckVm: BlockSpec, projectVm: BlockSpec,
                     ck: seq<string>, vm: seq<string>, ckNames: seq<string>, vmNames: seq<string>, basins: seq<string>)
    requires ws.Valid() && (ck == [] || Mapped(pnl)) && Mapped(ckVm) && Mapped(projectVm)
    modifies ws
    ensures ws.Valid() && ws.title == old(ws.title)
    ensures ws.cells == old(ws.cells) + BlocksAt(pnl, ckVm, projectVm, ck, vm, ckNames, vmNames, basins)
  {
    ghost var c0 := ws.cells;
    var rowPtr := 4;
    rowPtr := WriteBlock(ws, pnl, 4, ck);
    ghost var c1 := ws.cells;
    var s2 := rowPtr + 2;
    rowPtr := WriteBlock(ws, ckVm, s2, ck);
    ghost var c2 := ws.cells;
    var ckData0 := rowPtr - |ck| - 2 + 1;
    var s3 := rowPtr + 2;
    rowPtr := WriteBlock(ws, projectVm, s3, vm);
    ghost var c3 := ws.cells;
    var vmData0 := rowPtr - |vm| - 2 + 1;
    var s4 := rowPtr + 2;
    var ckMap, vmMap := RowMap(ckNames, ckData0), RowMap(vmNames, vmData0);
    var end := WriteComparisonBlock(ws, "Comparison", s4, basins, CkFields, ckMap, vmMap);
    ghost var a, b := BlockCells(pnl, 4, ck), BlockCells(ckVm, s2, ck);
    ghost var c, d := BlockCells(projectVm, s3, vm), CompareCells("Comparison", s4, basins, CkFields, ckMap, vmMap);
    UnionChain(c0, c1, c2, c3, ws.cells, a, b, c, d);
    BlocksAtRows(pnl, ckVm, projectVm, ck, vm, ckNames, vmNames, basins, s2, s3, s4, ckData0, vmData0);
  }

  /** The block positions `WriteBlocks` reaches are the ones `PivotRows`
      computes. */
  lemma BlocksAtRows(pnl: BlockSpec, ckVm: BlockSpec, projectVm: BlockSpec, ck: seq<string>, vm: seq<string>,
                     ckNames: seq<string>, vmNames: seq<string>, basins: seq<string>,
                     s2: nat, s3: nat, s4: nat, ckData0: nat, vmData0: nat)
    requires s2 == 4 + |ck| + 3 + 2 && s3 == s2 + |ck| + 3 + 2 && s4 == s3 + |vm| + 3 + 2
    requires ckData0 == s3 - 2 - |ck| - 2 + 1 && vmData0 == s4 - 2 - |vm| - 2 + 1
    ensures BlocksAt(pnl, ckVm, projectVm, ck, vm, ckNames, vmNames, basins)
      == BlockCells(pnl, 4, ck) + BlockCells(ckVm, s2, ck) + BlockCells(projectVm, s3, vm)
        + CompareCells("Comparison", s4, basins, CkFields, RowMap(ckNames, ckData0), RowMap(vmNames, vmData0))
  {
    var p := PivotRows(|ck|, |vm|, |basins|);
    assert p.ckPnl == 4 && p.ckVm == s2 && p.projectVm == s3 && p.comparison == s4;
    assert p.ckData0 == ckData0 && p.vmData0 == vmData0;
  }

  /** The CK VM and Project VM blocks have a column for every field. */
  lemma FixedBlocksMapped(db: Grid)
    ensures Mapped(CkVmBlock(db)) && Mapped(ProjectVmBlock(db))
  {
  }

  lemma UnionChain<K, V>(c0: map<K, V>, c1: map<K, V>, c2: map<K, V>, c3: map<K, V>, c4: map<K, V>,
                         a: map<K, V>, b: map<K, V>, c: map<K, V>, d: map<K, V>)
    requires c1 == c0 + a && c2 == c1 + b && c3 == c2 + c && c4 == c3 + d
    ensures c4 == c0 + (a + b + c + d)
  {
    UnionAssoc(c0, a, b);
    UnionAssoc(c0, a + b, c);
    UnionAssoc(c0, a + b + c, d);
  }
}
