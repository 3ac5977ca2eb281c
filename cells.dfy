/** Spreadsheet cells as the workbook reader returns them, the Python
    coercions the pipelines apply to them, and the Excel formulas the report
    builders write. */
module Cells {
  import opened Wrappers
  import opened Strings

  /** A cell value: blank (`None`), text, integer, float or date.  Formulas
      in a workbook opened without cached values come back as text. */
  datatype Cell = Empty | Text(s: string) | Int(i: int) | Num(x: real) | Stamp(year: nat, month: nat, day: nat)

  /** Python truthiness of the value (`if v:`). */
  predicate Truthy(c: Cell) {
    match c
    case Empty => false
    case Text(s) => |s| > 0
    case Int(i) => i != 0
    case Num(x) => x != 0.0
    case Stamp(_, _, _) => true
  }

  /** `str(datetime(y, m, d))`. */
  function StampText(year: nat, month: nat, day: nat): string {
    PadZeros(NatText(year), 4) + "-" + PadZeros(NatText(month), 2) + "-" + PadZeros(NatText(day), 2) + " 00:00:00"
  }

  /** `str(v)`.  The rendering of a float is not modelled: `None` stands for
      "some decimal text", which the callers treat as matching no label. */
  function PyStr(c: Cell): (r: Option<string>)
    ensures r.None? <==> c.Num?
  {
    match c
    case Empty => Some("None")
    case Text(s) => Some(s)
    case Int(i) => Some(IntText(i))
    case Num(_) => None
    case Stamp(y, m, d) => Some(StampText(y, m, d))
  }

  /** `str(v or "").strip()`: blank and other falsy values give "". */
  function LabelOf(c: Cell): (r: Option<string>)
    ensures !Truthy(c) ==> r == Some("")
    ensures c.Text? ==> r == Some(Strip(c.s))
  {
    if !Truthy(c) then Some("")
    else match PyStr(c)
      case Some(t) => Some(Strip(t))
      case None => None
  }

  /** Python's `float(v)`; `None` is the exception (TypeError for blanks
      and dates, ValueError for text that is no finite literal of `float()`'s
      grammar).  The spellings of infinity and NaN are not modelled. */
  function FloatOf(c: Cell): (r: Option<real>)
    ensures c.Int? ==> r == Some(c.i as real)
    ensures c.Num? ==> r == Some(c.x)
    ensures c.Empty? || c.Stamp? ==> r.None?
  {
    match c
    case Empty => None
    case Text(s) => PyFloat(s)
    case Int(i) => Some(i as real)
    case Num(x) => Some(x)
    case Stamp(_, _, _) => None
  }

  /** `int(x)` for a float: truncation toward zero. */
  function Trunc(x: real): (r: int)
    ensures x >= 0.0 ==> r as real <= x < r as real + 1.0
    ensures x < 0.0 ==> r as real - 1.0 < x <= r as real
  {
    if x >= 0.0 then x.Floor else -((-x).Floor)
  }

  // ---------------------------------------------------------------- grids

  /** A read-only sheet, row by row. */
  type Grid = seq<seq<Cell>>

  /** `ws.cell(r, c).value` with 1-based coordinates; blank outside. */
  function At(g: Grid, r: int, c: int): Cell {
    if 1 <= r <= |g| && 1 <= c <= |g[r - 1]| then g[r - 1][c - 1] else Empty
  }

  /** `ws.max_row`: an empty sheet still reports one row. */
  function MaxRow(g: Grid): (r: nat)
    ensures r >= 1 && r >= |g|
  {
    if |g| == 0 then 1 else |g|
  }

  /** Length of the longest row. */
  function Width(g: Grid): (w: nat)
    ensures forall k :: 0 <= k < |g| ==> |g[k]| <= w
  {
    if g == [] then 0
    else
      var w := Width(g[..|g| - 1]);
      assert forall k :: 0 <= k < |g| - 1 ==> g[k] == g[..|g| - 1][k];
      if |g[|g| - 1]| > w then |g[|g| - 1]| else w
  }

  /** `ws.max_column`. */
  function MaxCol(g: Grid): (c: nat)
    ensures c >= 1 && forall k :: 0 <= k < |g| ==> |g[k]| <= c
  {
    if Width(g) == 0 then 1 else Width(g)
  }

  lemma AtBeyondWidth(g: Grid, r: int, c: int)
    requires c > MaxCol(g) || r > MaxRow(g)
    ensures At(g, r, c) == Empty
  {
  }

  // ---------------------------------------------------------------- formulas

  /** The formulas the builders write.  Coordinates are (column, row), both
      1-based; absolute (`$`) and relative references are not told apart. */
  datatype Expr =
    | Lit(v: real)
    | Ref(col: nat, row: nat)
    | Far(sheet: string, col: nat, row: nat)
    | Neg(e: Expr)
    | Add(a: Expr, b: Expr)
    | Sub(a: Expr, b: Expr)
    | Div(a: Expr, b: Expr)
    | SumRange(col: nat, first: nat, last: nat)
    | SumIfs(sheet: string, sumCol: nat, first: nat, last: nat, criteria: seq<Criterion>)
    | SumIf(ifSheet: string, critCol: nat, critFirst: nat, critLast: nat, crit: Expr, sumColumn: nat)
    | IfTextEq(test: Expr, text: string, yes: Expr, no: Expr)

  /** One `criteria_range, criterion` pair of a SUMIFS over rows
      `first..last` of column `col`. */
  datatype Criterion = Criterion(col: nat, value: Expr)

  /** `SUM` of column `col` over rows `first..last` of the same sheet. */
  function ColumnSum(env: (nat, nat) -> real, col: nat, first: nat, last: nat): real
    decreases last + 1 - first
  {
    if first > last then 0.0 else env(col, first) + ColumnSum(env, col, first + 1, last)
  }

  /** Value of a same-sheet sum or difference, given the values of the cells
      it refers to; `None` for the quotients, lookups and conditionals, which
      `PnlPivot.BlockEval` evaluates for the formulas that use them. */
  function Eval(e: Expr, env: (nat, nat) -> real): Option<real> {
    match e
    case Lit(v) => Some(v)
    case Ref(c, r) => Some(env(c, r))
    case Neg(a) =>
      (match Eval(a, env) case Some(x) => Some(-x) case None => None)
    case Add(a, b) =>
      (match (Eval(a, env), Eval(b, env))
       case (Some(x), Some(y)) => Some(x + y)
       case _ => None)
    case Sub(a, b) =>
      (match (Eval(a, env), Eval(b, env))
       case (Some(x), Some(y)) => Some(x - y)
       case _ => None)
    case SumRange(c, first, last) => Some(ColumnSum(env, c, first, last))
    case _ => None
  }

  /** What a worksheet cell holds once written: a value or a formula. */
  datatype Content = Value(v: Cell) | Formula(e: Expr)
}
