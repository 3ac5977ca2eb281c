/** The transload pre-fill of the "P. VM - Adjustments" manual grid: each
    Database row whose account is proppant transloading becomes a manual
    row carrying its Adjusted NC under PROP COST, and each basin then gets
    one correction row that takes the basin's total back out. */
module Transload {
  import opened Wrappers
  import opened Ordering
  import opened Cells
  import opened ProjectVmAdjustment

  /** One row of the Database's BF:BM block, by the columns the pre-fill
      reads; the basin is its text, or `None` when blank. */
  datatype TransRow = TransRow(project: Cell, basin: Option<string>, period: Cell, desc: Cell, adjusted: Cell)

  const Transloading := "PROPPANT TRANSLOADING"

  /** Position of PROP COST among the summary fields. */
  const PropCost: nat := 8

  /** `df_trans[df_trans["Account Desc"] == "PROPPANT TRANSLOADING"]`. */
  function Transloads(ts: seq<TransRow>): seq<TransRow> {
    if ts == [] then []
    else
      var n := |ts| - 1;
      Transloads(ts[..n]) + (if ts[n].desc == Text(Transloading) then [ts[n]] else [])
  }

  /** What the filter keeps is exactly the transloading rows, in order. */
  lemma {:induction false} TransloadsKept(ts: seq<TransRow>, t: TransRow)
    ensures t in Transloads(ts) <==> t in ts && t.desc == Text(Transloading)
  {
    if ts != [] {
      var n := |ts| - 1;
      TransloadsKept(ts[..n], t);
      assert ts == ts[..n] + [ts[n]];
    }
  }

  function NumberOr(x: Option<real>): Amount {
    match x
    case Some(v) => Number(v)
    case None => Missing
  }

  /** Sixteen amounts, all 0 but PROP COST. */
  function PropCostOnly(a: Amount): (r: seq<Amount>)
    ensures |r| == |SummaryFields| && r[PropCost] == a
    ensures forall j :: 0 <= j < |r| && j != PropCost ==> r[j] == Number(0.0)
  {
    seq(|SummaryFields|, j requires 0 <= j < |SummaryFields| => if j == PropCost then a else Number(0.0))
  }

  function BasinCell(b: Option<string>): Cell {
    match b
    case Some(s) => Text(s)
    case None => Empty
  }

  /** A "Transload" row (lines 421-429): PROP COST is the Adjusted NC. */
  function TransloadRow(t: TransRow): ManualRow {
    ManualRow(t.project, BasinCell(t.basin), t.period, PropCostOnly(NumberOr(ToNumber(t.adjusted))), "Transload")
  }

  function TransloadRows(ks: seq<TransRow>): seq<ManualRow> {
    if ks == [] then [] else TransloadRows(ks[..|ks| - 1]) + [TransloadRow(ks[|ks| - 1])]
  }

  /** A row's Adjusted NC as `sum()` counts it: NaN adds nothing. */
  function Adjusted(t: TransRow): real {
    match ToNumber(t.adjusted)
    case Some(x) => x
    case None => 0.0
  }

  /** `grp["Adjusted NC"].sum()` over the rows of basin `b`. */
  function GroupSum(ks: seq<TransRow>, b: Option<string>): real {
    if ks == [] then 0.0
    else GroupSum(ks[..|ks| - 1], b) + (if ks[|ks| - 1].basin == b then Adjusted(ks[|ks| - 1]) else 0.0)
  }

  /** The non-blank basins, in row order (`groupby` drops the blanks). */
  function Basins(ks: seq<TransRow>): seq<string> {
    if ks == [] then []
    else
      var n := |ks| - 1;
      Basins(ks[..n]) + (match ks[n].basin case Some(b) => [b] case None => [])
  }

  /** `grp["Period Name"].iat[0]`: the period of the group's first row. */
  function FirstPeriod(ks: seq<TransRow>, b: string): Cell {
    if ks == [] then Empty
    else if ks[0].basin == Some(b) then ks[0].period
    else FirstPeriod(ks[1..], b)
  }

  /** A "Transload Correction" row (lines 430-438): PROP COST is minus the
      group's total. */
  function CorrectionRow(ks: seq<TransRow>, b: string): ManualRow {
    ManualRow(Text(""), Text(b), FirstPeriod(ks, b), PropCostOnly(Number(-GroupSum(ks, Some(b)))), "Transload Correction")
  }

  function CorrectionRows(ks: seq<TransRow>, keys: seq<string>): seq<ManualRow> {
    if keys == [] then [] else CorrectionRows(ks, keys[..|keys| - 1]) + [CorrectionRow(ks, keys[|keys| - 1])]
  }

  /** `df_prefill` (lines 416-439): a Transload row per transloading row,
      then a correction row per basin in sorted order. */
  function Prefill(trans: seq<TransRow>): seq<ManualRow> {
    var ks := Transloads(trans);
    TransloadRows(ks) + CorrectionRows(ks, SortedDistinct(Basins(ks)))
  }

  /** The first loop: a Transload row per kept row. */
  method AddTransloads(ks: seq<TransRow>) returns (rows: seq<ManualRow>)
    ensures rows == TransloadRows(ks)
  {
    rows := [];
    for i := 0 to |ks|
      invariant rows == TransloadRows(ks[..i])
    {
      assert ks[..i + 1][..i] == ks[..i];
      rows := rows + [TransloadRow(ks[i])];
    }
    assert ks[..|ks|] == ks;
  }

  /** The second loop: a correction row per basin key. */
  method AddCorrections(ks: seq<TransRow>, keys: seq<string>) returns (rows: seq<ManualRow>)
    ensures rows == CorrectionRows(ks, keys)
  {
    rows := [];
    for j := 0 to |keys|
      invariant rows == CorrectionRows(ks, keys[..j])
    {
      assert keys[..j + 1][..j] == keys[..j];
      rows := rows + [CorrectionRow(ks, keys[j])];
    }
    assert keys[..|keys|] == keys;
  }

  /** The pre-fill with the source's two loops. */
  method TransloadPrefill(trans: seq<TransRow>) returns (rows: seq<ManualRow>)
    ensures rows == Prefill(trans)
  {
    var ks := Transloads(trans);
    var head := AddTransloads(ks);
    var tail := AddCorrections(ks, SortedDistinct(Basins(ks)));
    rows := head + tail;
  }

  /** The PROP COST of a row as a sum counts it. */
  function PropAmount(r: ManualRow): real {
    if |r.amounts| > PropCost && r.amounts[PropCost].Number? then r.amounts[PropCost].x else 0.0
  }

  /** The PROP COST of the rows of basin `b`. */
  function PropSum(rows: seq<ManualRow>, b: Cell): real {
    if rows == [] then 0.0
    else PropSum(rows[..|rows| - 1], b) + (if rows[|rows| - 1].basin == b then PropAmount(rows[|rows| - 1]) else 0.0)
  }

  lemma {:induction false} PropSumAppend(a: seq<ManualRow>, c: seq<ManualRow>, b: Cell)
    ensures PropSum(a + c, b) == PropSum(a, b) + PropSum(c, b)
    decreases |c|
  {
    if c == [] {
      assert a + c == a;
    } else {
      var n := |c| - 1;
      assert (a + c)[..|a + c| - 1] == a + c[..n];
      PropSumAppend(a, c[..n], b);
    }
  }

  /** The Transload rows of a basin carry that basin's Adjusted NC. */
  lemma {:induction false} TransloadRowsSum(ks: seq<TransRow>, b: Option<string>)
    ensures PropSum(TransloadRows(ks), BasinCell(b)) == GroupSum(ks, b)
  {
    if ks != [] {
      var n := |ks| - 1;
      TransloadRowsSum(ks[..n], b);
      var r := TransloadRow(ks[n]);
      assert TransloadRows(ks)[..|TransloadRows(ks)| - 1] == TransloadRows(ks[..n]);
      assert PropAmount(r) == Adjusted(ks[n]);
      assert r.basin == BasinCell(b) <==> ks[n].basin == b;
    }
  }

  /** Over distinct keys, the correction rows of basin `b` total minus its
      group sum when `b` is a key, and nothing otherwise. */
  lemma {:induction false} CorrectionRowsSum(ks: seq<TransRow>, keys: seq<string>, b: string)
    requires Distinct(keys)
    ensures PropSum(CorrectionRows(ks, keys), Text(b)) == if b in keys then -GroupSum(ks, Some(b)) else 0.0
  {
    if keys != [] {
      var n := |keys| - 1;
      var init := keys[..n];
      assert Distinct(init);
      CorrectionRowsSum(ks, init, b);
      var rows := CorrectionRows(ks, keys);
      assert rows[..|rows| - 1] == CorrectionRows(ks, init);
      assert keys == init + [keys[n]];
      if keys[n] == b {
        assert b !in init;
      }
    }
  }

  /** A basin no row carries has no Adjusted NC. */
  lemma {:induction false} GroupSumAbsent(ks: seq<TransRow>, b: string)
    requires b !in Basins(ks)
    ensures GroupSum(ks, Some(b)) == 0.0
  {
    if ks != [] {
      var n := |ks| - 1;
      assert Basins(ks[..n]) <= Basins(ks);
      assert forall x :: x in Basins(ks[..n]) ==> x in Basins(ks);
      GroupSumAbsent(ks[..n], b);
    }
  }

  /** For every basin, the PROP COST of its Transload rows and its single
      correction row cancel. */
  lemma TransloadCancels(trans: seq<TransRow>, b: string)
    ensures PropSum(Prefill(trans), Text(b)) == 0.0
  {
    var ks := Transloads(trans);
    var keys := SortedDistinct(Basins(ks));
    SortedIsDistinct(keys);
    PropSumAppend(TransloadRows(ks), CorrectionRows(ks, keys), Text(b));
    TransloadRowsSum(ks, Some(b));
    CorrectionRowsSum(ks, keys, b);
    if b !in keys {
      GroupSumAbsent(ks, b);
    }
  }

  /** Transload rows with a blank basin get no correction: their PROP COST
      stays in the grid.  (`groupby` drops NaN keys.) */
  lemma BlankBasinUncorrected(trans: seq<TransRow>)
    ensures PropSum(Prefill(trans), Empty) == GroupSum(Transloads(trans), None)
  {
    var ks := Transloads(trans);
    var keys := SortedDistinct(Basins(ks));
    PropSumAppend(TransloadRows(ks), CorrectionRows(ks, keys), Empty);
    TransloadRowsSum(ks, None);
    CorrectionsNotBlank(ks, keys);
  }

  lemma {:induction false} CorrectionsNotBlank(ks: seq<TransRow>, keys: seq<string>)
    ensures PropSum(CorrectionRows(ks, keys), Empty) == 0.0
  {
    if keys != [] {
      var rows := CorrectionRows(ks, keys);
      assert rows[..|rows| - 1] == CorrectionRows(ks, keys[..|keys| - 1]);
      CorrectionsNotBlank(ks, keys[..|keys| - 1]);
    }
  }
}
