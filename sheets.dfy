/** A worksheet being written: the cells assigned so far and the row count
    openpyxl reports for it. */
module Sheets {
  import opened Cells

  /** The cells `vals[0..]` land in when written left to right from
      (`row`, `col`). */
  function RowWrites(row: int, col: int, vals: seq<Content>): map<(int, int), Content> {
    if vals == [] then map[]
    else RowWrites(row, col, vals[..|vals| - 1])[(row, col + |vals| - 1) := vals[|vals| - 1]]
  }

  /** Each value lands in its own column of the row. */
  lemma {:induction false} RowWritesAt(row: int, col: int, vals: seq<Content>, j: int)
    requires 0 <= j < |vals|
    ensures (row, col + j) in RowWrites(row, col, vals)
    ensures RowWrites(row, col, vals)[(row, col + j)] == vals[j]
  {
    var init := vals[..|vals| - 1];
    if j < |init| {
      RowWritesAt(row, col, init, j);
      assert init[j] == vals[j];
    }
  }

  /** A written row touches nothing outside its own cells. */
  lemma {:induction false} RowWritesKeys(row: int, col: int, vals: seq<Content>)
    ensures forall p :: p in RowWrites(row, col, vals) ==> p.0 == row && col <= p.1 < col + |vals|
  {
    if vals != [] {
      RowWritesKeys(row, col, vals[..|vals| - 1]);
    }
  }

  lemma RowWritesSnoc(row: int, col: int, vals: seq<Content>, v: Content)
    ensures RowWrites(row, col, vals + [v]) == RowWrites(row, col, vals)[(row, col + |vals|) := v]
  {
    assert (vals + [v])[..|vals|] == vals;
  }

  lemma RowWritesStep(base: map<(int, int), Content>, cur: map<(int, int), Content>, next: map<(int, int), Content>,
                      row: int, col: int, vals: seq<Content>, j: int)
    requires 0 <= j < |vals|
    requires cur == base + RowWrites(row, col, vals[..j])
    requires next == cur[(row, col + j) := vals[j]]
    ensures next == base + RowWrites(row, col, vals[..j + 1])
  {
    assert vals[..j + 1] == vals[..j] + [vals[j]];
    RowWritesSnoc(row, col, vals[..j], vals[j]);
    UnionUpdate(base, RowWrites(row, col, vals[..j]), (row, col + j), vals[j]);
  }

  /** The cells rows `rows[0..]` land in when written one under the other
      from row `first`, each from column `col`. */
  function RowsWrites(first: int, col: int, rows: seq<seq<Content>>): map<(int, int), Content> {
    if rows == [] then map[]
    else RowsWrites(first, col, rows[..|rows| - 1]) + RowWrites(first + |rows| - 1, col, rows[|rows| - 1])
  }

  /** Row `first + k` holds `rows[k]` from column `col` on. */
  lemma {:induction false} RowsWritesAt(first: int, col: int, rows: seq<seq<Content>>, k: int, j: int)
    requires 0 <= k < |rows| && 0 <= j < |rows[k]|
    ensures (first + k, col + j) in RowsWrites(first, col, rows)
    ensures RowsWrites(first, col, rows)[(first + k, col + j)] == rows[k][j]
  {
    var init := rows[..|rows| - 1];
    RowWritesKeys(first + |rows| - 1, col, rows[|rows| - 1]);
    if k < |init| {
      RowsWritesAt(first, col, init, k, j);
      assert init[k] == rows[k];
    } else {
      RowWritesAt(first + k, col, rows[k], j);
    }
  }

  /** Written rows touch only rows `first .. first + |rows| - 1`, from
      column `col` on. */
  lemma {:induction false} RowsWritesKeys(first: int, col: int, rows: seq<seq<Content>>)
    ensures forall p :: p in RowsWrites(first, col, rows) ==> first <= p.0 < first + |rows| && col <= p.1
  {
    if rows != [] {
      RowsWritesKeys(first, col, rows[..|rows| - 1]);
      RowWritesKeys(first + |rows| - 1, col, rows[|rows| - 1]);
    }
  }

  lemma RowsWritesStep(base: map<(int, int), Content>, cur: map<(int, int), Content>, next: map<(int, int), Content>,
                       first: int, col: int, rows: seq<seq<Content>>, k: int, rk: int, row: seq<Content>)
    requires 0 <= k < |rows| && rk == first + k && row == rows[k]
    requires cur == base + RowsWrites(first, col, rows[..k])
    requires next == cur + RowWrites(rk, col, row)
    ensures next == base + RowsWrites(first, col, rows[..k + 1])
  {
    var pre := rows[..k + 1];
    assert pre[..|pre| - 1] == rows[..k] && pre[|pre| - 1] == row;
    assert RowsWrites(first, col, pre) == RowsWrites(first, col, rows[..k]) + RowWrites(rk, col, row);
    UnionAssoc(base, RowsWrites(first, col, rows[..k]), RowWrites(rk, col, row));
  }

  lemma UnionAssoc<K, V>(a: map<K, V>, b: map<K, V>, c: map<K, V>)
    ensures (a + b) + c == a + (b + c)
  {
  }

  lemma EmptyUnion<K, V>(m: map<K, V>)
    ensures map[] + m == m
  {
  }

  /** A row of texts, as written from a list of column names. */
  function TextCells(names: seq<string>): (cs: seq<Content>)
    ensures |cs| == |names|
    ensures forall j :: 0 <= j < |names| ==> cs[j] == Value(Text(names[j]))
  {
    seq(|names|, j requires 0 <= j < |names| => Value(Text(names[j])))
  }

  /** Rows of plain values. */
  function ValueRows(rows: Grid): (t: seq<seq<Content>>)
    ensures |t| == |rows|
    ensures forall i :: 0 <= i < |rows| ==> |t[i]| == |rows[i]|
    ensures forall i, j :: 0 <= i < |rows| && 0 <= j < |rows[i]| ==> t[i][j] == Value(rows[i][j])
  {
    seq(|rows|, i requires 0 <= i < |rows| =>
      seq(|rows[i]|, j requires 0 <= j < |rows[i]| => Value(rows[i][j])))
  }

  lemma UnionUpdate<K, V>(a: map<K, V>, b: map<K, V>, k: K, v: V)
    ensures (a + b)[k := v] == a + b[k := v]
  {
  }

  class Worksheet {
    var title: string
    /** Written cells keyed by (row, column), both 1-based. */
    var cells: map<(int, int), Content>
    /** `ws.max_row`: the last row holding a written cell, 1 when none. */
    var maxRow: nat
    /** A column of row `maxRow` that holds a cell, when `maxRow > 1`. */
    ghost var lastRowCol: int

    ghost predicate Valid()
      reads this
    {
      && maxRow >= 1
      && (forall p :: p in cells ==> 1 <= p.0 <= maxRow && p.1 >= 1)
      && (maxRow == 1 || (maxRow, lastRowCol) in cells)
    }

    constructor (name: string)
      ensures Valid()
      ensures title == name && cells == map[] && maxRow == 1
    {
      title := name;
      cells := map[];
      maxRow := 1;
    }

    /** `ws.cell(r, c).value`, blank when never written. */
    function Get(r: nat, c: nat): Content
      reads this
    {
      if (r, c) in cells then cells[(r, c)] else Value(Empty)
    }

    /** `ws.cell(row=r, column=c, value=v)`. */
    method Put(r: nat, c: nat, v: Content)
      requires Valid() && r >= 1 && c >= 1
      modifies this
      ensures Valid()
      ensures cells == old(cells)[(r, c) := v]
      ensures maxRow == if r > old(maxRow) then r else old(maxRow)
      ensures title == old(title)
    {
      cells := cells[(r, c) := v];
      if r > maxRow {
        maxRow := r;
        lastRowCol := c;
      }
    }

    /** Writes `vals` into row `r` from column `c` on, one cell at a time. */
    method PutRow(r: nat, c: nat, vals: seq<Content>)
      requires Valid() && r >= 1 && c >= 1
      modifies this
      ensures Valid()
      ensures cells == old(cells) + RowWrites(r, c, vals)
      ensures maxRow == if vals != [] && r > old(maxRow) then r else old(maxRow)
      ensures title == old(title)
    {
      var j := 0;
      ghost var start := cells;
      while j < |vals|
        invariant 0 <= j <= |vals|
        invariant Valid() && title == old(title)
        invariant cells == start + RowWrites(r, c, vals[..j])
        invariant maxRow == if j > 0 && r > old(maxRow) then r else old(maxRow)
      {
        ghost var before := cells;
        Put(r, c + j, vals[j]);
        RowWritesStep(start, before, cells, r, c, vals, j);
        j := j + 1;
      }
      assert vals[..j] == vals;
    }

    /** Writes `rows` one under the other from row `r`, each from column `c`. */
    method PutRows(r: nat, c: nat, rows: seq<seq<Content>>)
      requires Valid() && r >= 1 && c >= 1
      modifies this
      ensures Valid()
      ensures cells == old(cells) + RowsWrites(r, c, rows)
      ensures maxRow >= old(maxRow) && title == old(title)
    {
      var k := 0;
      ghost var start := cells;
      while k < |rows|
        invariant 0 <= k <= |rows|
        invariant Valid() && title == old(title) && maxRow >= old(maxRow)
        invariant cells == start + RowsWrites(r, c, rows[..k])
      {
        ghost var before := cells;
        var rk, row := r + k, rows[k];
        PutRow(rk, c, row);
        RowsWritesStep(start, before, cells, r, c, rows, k, rk, row);
        k := k + 1;
      }
      assert rows[..k] == rows;
    }
  }
}
