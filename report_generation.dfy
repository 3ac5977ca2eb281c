/** The monthly database sheet: every exported table laid out side by side,
    each block titled in row 1, its column names in row 2 and its data from
    row 3, with one blank column between blocks. */
module ReportGeneration {
  import opened Wrappers
  import opened Cells
  import opened Sheets
  import opened Seqs

  /** Lines 26-37 and 38-41: the sheets pulled from each workbook, in order. */
  const TableauViews: seq<string> := [
    "Main_Combo", "Stragglers", "Basin_Crew_Count", "GL_Basin_Pivot", "Project_VM",
    "Transload", "Unassigned_Rev_CA", "Unalloc_Costs", "FCAST", "Project_List"]
  const RefViews: seq<string> := ["FX", "CK data Pivot"]

  const DatabaseTitle: string := "Database"

  /** A parsed sheet: its column names and its data rows. */
  datatype Frame = Frame(columns: seq<string>, rows: Grid)

  /** Every data row has one value per column, as a DataFrame's values do. */
  predicate Rectangular(f: Frame) {
    forall i :: 0 <= i < |f.rows| ==> |f.rows[i]| == |f.columns|
  }

  /** A titled block. */
  datatype Block = Block(title: string, frame: Frame)

  function Width(b: Block): nat {
    |b.frame.columns|
  }

  /** The cells one block fills when it starts at column `s`. */
  function BlockWrites(b: Block, s: int): map<(int, int), Content> {
    map[(1, s) := Value(Text(b.title))]
      + RowWrites(2, s, TextCells(b.frame.columns))
      + RowsWrites(3, s, ValueRows(b.frame.rows))
  }

  /** The title lands at (1, s). */
  lemma TitlePlacement(b: Block, s: int)
    ensures (1, s) in BlockWrites(b, s) && BlockWrites(b, s)[(1, s)] == Value(Text(b.title))
  {
    var t, h, d := map[(1, s) := Value(Text(b.title))], RowWrites(2, s, TextCells(b.frame.columns)), RowsWrites(3, s, ValueRows(b.frame.rows));
    RowWritesKeys(2, s, TextCells(b.frame.columns));
    RowsWritesKeys(3, s, ValueRows(b.frame.rows));
    UnionLeft(t, h, (1, s));
    UnionLeft(t + h, d, (1, s));
  }

  /** Column name `j` lands at (2, s + j). */
  lemma HeaderPlacement(b: Block, s: int, j: int)
    requires 0 <= j < Width(b)
    ensures (2, s + j) in BlockWrites(b, s) && BlockWrites(b, s)[(2, s + j)] == Value(Text(b.frame.columns[j]))
  {
    var names := TextCells(b.frame.columns);
    var t, h, d := map[(1, s) := Value(Text(b.title))], RowWrites(2, s, names), RowsWrites(3, s, ValueRows(b.frame.rows));
    RowWritesAt(2, s, names, j);
    RowsWritesKeys(3, s, ValueRows(b.frame.rows));
    UnionRight(t, h, (2, s + j));
    UnionLeft(t + h, d, (2, s + j));
  }

  /** Value `j` of data row `i` lands at (3 + i, s + j). */
  lemma DataPlacement(b: Block, s: int, i: int, j: int)
    requires 0 <= i < |b.frame.rows| && 0 <= j < |b.frame.rows[i]|
    ensures (3 + i, s + j) in BlockWrites(b, s) && BlockWrites(b, s)[(3 + i, s + j)] == Value(b.frame.rows[i][j])
  {
    var rows := ValueRows(b.frame.rows);
    var t, h, d := map[(1, s) := Value(Text(b.title))], RowWrites(2, s, TextCells(b.frame.columns)), RowsWrites(3, s, rows);
    RowsWritesAt(3, s, rows, i, j);
    UnionRight(t + h, d, (3 + i, s + j));
  }

  lemma UnionLeft<K, V>(a: map<K, V>, b: map<K, V>, k: K)
    requires k in a && k !in b
    ensures k in a + b && (a + b)[k] == a[k]
  {
  }

  lemma UnionRight<K, V>(a: map<K, V>, b: map<K, V>, k: K)
    requires k in b
    ensures k in a + b && (a + b)[k] == b[k]
  {
  }

  /** A block with columns fills exactly its own columns `s .. s + width - 1`. */
  lemma BlockColumns(b: Block, s: int)
    requires Width(b) >= 1 && Rectangular(b.frame)
    ensures forall p :: p in BlockWrites(b, s) ==> s <= p.1 < s + Width(b) && p.0 >= 1
  {
    var t := ValueRows(b.frame.rows);
    RowWritesKeys(2, s, TextCells(b.frame.columns));
    RowsWritesKeys(3, s, t);
    forall k | 0 <= k < |t|
      ensures forall p :: p in RowWrites(3 + k, s, t[k]) ==> p.1 < s + Width(b)
    {
      RowWritesKeys(3 + k, s, t[k]);
    }
    RowsWritesColumns(3, s, t, Width(b));
  }

  /** Rows of at most `w` values written from column `s` stay left of `s + w`. */
  lemma {:induction false} RowsWritesColumns(first: int, s: int, t: seq<seq<Content>>, w: int)
    requires forall k :: 0 <= k < |t| ==> |t[k]| <= w
    ensures forall p :: p in RowsWrites(first, s, t) ==> p.1 < s + w
  {
    if t != [] {
      var init := t[..|t| - 1];
      RowsWritesColumns(first, s, init, w);
      RowWritesKeys(first + |t| - 1, s, t[|t| - 1]);
    }
  }

  /** The sheets of `views` the workbook has, in the order of `views`; the
      others are skipped. */
  function Present(views: seq<string>, book: map<string, Frame>): (r: seq<Block>)
    ensures |r| <= |views|
    ensures forall k :: 0 <= k < |r| ==> r[k].title in book && r[k].frame == book[r[k].title]
  {
    if views == [] then []
    else
      var n := |views| - 1;
      Present(views[..n], book)
        + if views[n] in book then [Block(views[n], book[views[n]])] else []
  }

  /** A view the workbook lacks adds no block. */
  lemma AbsentSkipped(views: seq<string>, v: string, book: map<string, Frame>)
    requires v !in book
    ensures Present(views + [v], book) == Present(views, book)
  {
    assert (views + [v])[..|views|] == views;
  }

  /** The titles of the blocks are exactly the views present, in order. */
  lemma {:induction false} PresentTitles(views: seq<string>, book: map<string, Frame>, v: string)
    ensures (v in views && v in book) <==> exists k :: 0 <= k < |Present(views, book)| && Present(views, book)[k].title == v
  {
    if views != [] {
      var n := |views| - 1;
      var init := views[..n];
      PresentTitles(init, book, v);
      assert views == init + [views[n]];
      var p := Present(init, book);
      var all := Present(views, book);
      if views[n] in book {
        assert all == p + [Block(views[n], book[views[n]])];
        if views[n] == v {
          assert all[|p|].title == v;
        }
        if exists k :: 0 <= k < |all| && all[k].title == v {
          var k :| 0 <= k < |all| && all[k].title == v;
          if k < |p| {
            assert p[k] == all[k];
          }
        }
        if exists k :: 0 <= k < |p| && p[k].title == v {
          var k :| 0 <= k < |p| && p[k].title == v;
          assert all[k] == p[k];
        }
      } else {
        assert all == p;
      }
    }
  }

  /** The column after the last block's blank column: where the next block
      would start. */
  function NextCol(blocks: seq<Block>, s: int): (r: int)
    ensures r >= s
  {
    if blocks == [] then s
    else NextCol(blocks[..|blocks| - 1], s) + Width(blocks[|blocks| - 1]) + 1
  }

  /** First column of block `k`. */
  function StartOf(blocks: seq<Block>, s: int, k: int): int
    requires 0 <= k <= |blocks|
  {
    NextCol(blocks[..k], s)
  }

  /** The first block starts at `s`, and each next one two columns after
      the last column of the one before. */
  lemma StartsStep(blocks: seq<Block>, s: int, k: int)
    requires 0 <= k < |blocks|
    ensures StartOf(blocks, s, 0) == s
    ensures StartOf(blocks, s, k + 1) == StartOf(blocks, s, k) + Width(blocks[k]) + 1
  {
    assert blocks[..0] == [];
    TakeTake(blocks, k, k + 1);
  }

  /** The whole sheet: each block at its start column. */
  function Layout(blocks: seq<Block>, s: int): map<(int, int), Content> {
    if blocks == [] then map[]
    else
      var init := blocks[..|blocks| - 1];
      Layout(init, s) + BlockWrites(blocks[|blocks| - 1], NextCol(init, s))
  }

  predicate AllWide(blocks: seq<Block>) {
    forall k :: 0 <= k < |blocks| ==> Width(blocks[k]) >= 1
  }

  predicate AllRectangular(blocks: seq<Block>) {
    forall k :: 0 <= k < |blocks| ==> Rectangular(blocks[k].frame)
  }

  /** Every block has columns and full rows. */
  predicate Fit(blocks: seq<Block>) {
    AllWide(blocks) && AllRectangular(blocks)
  }

  /** Everything laid out lies in columns `s .. NextCol - 2`. */
  lemma {:induction false} LayoutColumns(blocks: seq<Block>, s: int)
    requires Fit(blocks)
    ensures forall p :: p in Layout(blocks, s) ==> s <= p.1 <= NextCol(blocks, s) - 2 && p.0 >= 1
  {
    if blocks != [] {
      var init := blocks[..|blocks| - 1];
      LayoutColumns(init, s);
      BlockColumns(blocks[|blocks| - 1], NextCol(init, s));
    }
  }

  /** Each block's cells are found in the sheet unchanged: blocks never
      overlap. */
  lemma {:induction false} LayoutHoldsBlock(blocks: seq<Block>, s: int, k: int)
    requires Fit(blocks) && 0 <= k < |blocks|
    ensures forall p :: p in BlockWrites(blocks[k], StartOf(blocks, s, k)) ==>
      p in Layout(blocks, s) && Layout(blocks, s)[p] == BlockWrites(blocks[k], StartOf(blocks, s, k))[p]
  {
    var n := |blocks| - 1;
    var init, x := blocks[..n], blocks[n];
    var last := NextCol(init, s);
    var here := StartOf(blocks, s, k);
    var mine := BlockWrites(blocks[k], here);
    var after := BlockWrites(x, last);
    assert Layout(blocks, s) == Layout(init, s) + after;
    if k < n {
      LayoutHoldsBlock(init, s, k);
      TakeTake(blocks, k, n);
      assert init[k] == blocks[k];
      assert StartOf(init, s, k) == here;
      BlockColumns(x, last);
      BlockColumns(blocks[k], here);
      StartsStep(blocks, s, k);
      NextColPrefix(blocks, s, k + 1, n);
      UnionKeepsLeft(Layout(init, s), after, mine, here + Width(blocks[k]));
    }
  }

  /** Cells left of column `c` survive a union with cells from column `c` on. */
  lemma UnionKeepsLeft(a: map<(int, int), Content>, b: map<(int, int), Content>, m: map<(int, int), Content>, c: int)
    requires forall p :: p in m ==> p in a && a[p] == m[p] && p.1 < c
    requires forall p :: p in b ==> p.1 >= c
    ensures forall p :: p in m ==> p in a + b && (a + b)[p] == m[p]
  {
  }

  /** `NextCol` grows along the list. */
  lemma {:induction false} NextColPrefix(blocks: seq<Block>, s: int, j: int, k: int)
    requires 0 <= j <= k <= |blocks|
    ensures NextCol(blocks[..j], s) <= NextCol(blocks[..k], s)
    decreases k - j
  {
    if j < k {
      NextColPrefix(blocks, s, j, k - 1);
      TakeTake(blocks, k - 1, k);
    }
  }

  /** The column right after each block stays blank: whatever comes before
      ends left of it and whatever comes after starts right of it. */
  lemma BlankAfterBlock(blocks: seq<Block>, s: int, k: int)
    requires Fit(blocks) && 0 <= k < |blocks|
    ensures forall p :: p in Layout(blocks, s) ==> p.1 != StartOf(blocks, s, k) + Width(blocks[k])
  {
    TakeDrop(blocks, k + 1);
    StartsStep(blocks, s, k);
    Fits(blocks, 0, k + 1);
    Fits(blocks, k + 1, |blocks|);
    BlankBetween(blocks[..k + 1], blocks[k + 1..], s);
  }

  /** The column before `NextCol(front, s)` is blank in `front + back`. */
  lemma BlankBetween(front: seq<Block>, back: seq<Block>, s: int)
    requires Fit(front) && Fit(back)
    ensures forall p :: p in Layout(front + back, s) ==> p.1 != NextCol(front, s) - 1
  {
    var gap := NextCol(front, s) - 1;
    LayoutAppend(front, back, s);
    LayoutColumns(front, s);
    LayoutColumns(back, gap + 1);
    GapBetween(Layout(front, s), Layout(back, gap + 1), gap);
  }

  /** A slice of blocks that all have columns and full rows has them too. */
  lemma Fits(blocks: seq<Block>, i: int, j: int)
    requires Fit(blocks) && 0 <= i <= j <= |blocks|
    ensures Fit(blocks[i..j])
  {
    forall k | 0 <= k < j - i
      ensures blocks[i..j][k] == blocks[i + k]
    {
    }
  }

  lemma GapBetween(a: map<(int, int), Content>, b: map<(int, int), Content>, c: int)
    requires forall p :: p in a ==> p.1 < c
    requires forall p :: p in b ==> p.1 > c
    ensures forall p :: p in a + b ==> p.1 != c
  {
  }

  /** Lines 59-81 `write_block`: the title, the column names and the data,
      then the next free column, one past a blank one.  A sheet with no
      columns makes `merge_cells` raise before anything is written. */
  method WriteBlock(ws: Worksheet, b: Block, start: int) returns (r: Result<int>)
    requires ws.Valid() && start >= 1
    modifies ws
    ensures ws.Valid() && ws.title == old(ws.title)
    ensures Width(b) == 0 ==> r.Err? && ws.cells == old(ws.cells)
    ensures Width(b) >= 1 ==> r == Ok(start + Width(b) + 1) && ws.cells == old(ws.cells) + BlockWrites(b, start)
  {
    var n := |b.frame.columns|;
    if n == 0 {
      return Err("merge_cells: the range ends before it starts");
    }
    ghost var before := ws.cells;
    var h, t := TextCells(b.frame.columns), ValueRows(b.frame.rows);
    var title := Value(Text(b.title));
    var headerRow, dataRow := 2, 3;
    ws.Put(1, start, title);
    ws.PutRow(headerRow, start, h);
    ws.PutRows(dataRow, start, t);
    ghost var rw, rsw := RowWrites(headerRow, start, h), RowsWrites(dataRow, start, t);
    assert BlockWrites(b, start) == map[(1, start) := title] + rw + rsw;
    BlockUnion(before, map[(1, start) := title], rw, rsw, (1, start), title);
    var endCol := start + n - 1;
    r := Ok(endCol + 2);
  }

  lemma BlockUnion<K, V>(a: map<K, V>, t: map<K, V>, h: map<K, V>, d: map<K, V>, k: K, v: V)
    requires t == map[k := v]
    ensures a[k := v] + h + d == a + (t + h + d)
  {
  }

  /** Lines 84-98, one loop: each view the workbook has is written as a block
      from column `start` on; a block with no columns stops the build. */
  method WriteViews(ws: Worksheet, views: seq<string>, book: map<string, Frame>, start: int) returns (r: Result<int>)
    requires ws.Valid() && start >= 1
    modifies ws
    ensures ws.Valid() && ws.title == old(ws.title)
    ensures r.Ok? <==> AllWide(Present(views, book))
    ensures r.Ok? ==> r.value == NextCol(Present(views, book), start)
    ensures r.Ok? ==> ws.cells == old(ws.cells) + Layout(Present(views, book), start)
  {
    var col := start;
    var i := 0;
    ghost var base := ws.cells;
    while i < |views|
      invariant 0 <= i <= |views|
      invariant ws.Valid() && ws.title == old(ws.title)
      invariant Wrote(ws.cells, base, Present(views[..i], book), col, start)
    {
      r := WriteView(ws, views, book, i, col, base, start);
      if r.Err? {
        return;
      }
      col := r.value;
      i := i + 1;
    }
    TakeAll(views);
    WroteAll(ws.cells, base, Present(views, book), col, start);
    r := Ok(col);
  }

  /** One turn of the loop of `WriteViews`: view `i`, when the workbook has
      it, is written after the blocks of the views before it. */
  method WriteView(ws: Worksheet, views: seq<string>, book: map<string, Frame>, i: int, col: int,
                   ghost base: map<(int, int), Content>, ghost start: int) returns (r: Result<int>)
    requires 0 <= i < |views| && start >= 1
    requires ws.Valid() && Wrote(ws.cells, base, Present(views[..i], book), col, start)
    modifies ws
    ensures ws.Valid() && ws.title == old(ws.title)
    ensures r.Err? ==> !AllWide(Present(views, book))
    ensures r.Ok? ==> Wrote(ws.cells, base, Present(views[..i + 1], book), r.value, start)
  {
    ghost var done := Present(views[..i], book);
    PresentStep(views, book, i);
    if views[i] in book {
      var b := Block(views[i], book[views[i]]);
      r := WriteNext(ws, b, col, base, done, start);
      if r.Err? {
        NarrowStops(views, book, i);
      }
    } else {
      assert done + [] == done;
      r := Ok(col);
    }
  }

  lemma WroteAll(cells: map<(int, int), Content>, base: map<(int, int), Content>, done: seq<Block>, col: int, start: int)
    requires Wrote(cells, base, done, col, start)
    ensures AllWide(done) && col == NextCol(done, start) && cells == base + Layout(done, start)
  {
  }

  /** One block of the loop of `WriteViews`, written after those in `done`. */
  method WriteNext(ws: Worksheet, b: Block, col: int, ghost base: map<(int, int), Content>, ghost done: seq<Block>, ghost start: int)
    returns (r: Result<int>)
    requires ws.Valid() && start >= 1 && Wrote(ws.cells, base, done, col, start)
    modifies ws
    ensures ws.Valid() && ws.title == old(ws.title)
    ensures r.Err? <==> Width(b) == 0
    ensures r.Ok? ==> Wrote(ws.cells, base, done + [b], r.value, start)
  {
    ghost var before := ws.cells;
    r := WriteBlock(ws, b, col);
    if r.Ok? {
      LayoutStep(base, before, ws.cells, done, b, done + [b], start, col);
    }
  }

  /** The sheet holds `base` with `done` laid out from `start`, and `col` is
      the next free column. */
  ghost predicate Wrote(cells: map<(int, int), Content>, base: map<(int, int), Content>, done: seq<Block>, col: int, start: int) {
    AllWide(done) && col == NextCol(done, start) && cells == base + Layout(done, start)
  }

  lemma LayoutStep(base: map<(int, int), Content>, before: map<(int, int), Content>, after: map<(int, int), Content>,
                    done: seq<Block>, b: Block, next: seq<Block>, s: int, col: int)
    requires before == base + Layout(done, s) && col == NextCol(done, s)
    requires after == before + BlockWrites(b, col) && next == done + [b]
    requires AllWide(done) && Width(b) >= 1
    ensures Wrote(after, base, next, col + Width(b) + 1, s)
  {
    LayoutSnoc(done, b, s);
    UnionAssoc(base, Layout(done, s), BlockWrites(b, col));
  }

  /** A block with no columns anywhere in the list stops the build. */
  lemma NarrowStops(views: seq<string>, book: map<string, Frame>, i: int)
    requires 0 <= i < |views| && views[i] in book && |book[views[i]].columns| == 0
    ensures !AllWide(Present(views, book))
  {
    var b := Block(views[i], book[views[i]]);
    var done := Present(views[..i], book);
    PresentStep(views, book, i);
    PresentPrefix(views, book, i + 1);
    var all := Present(views, book);
    assert all[..|done| + 1] == done + [b];
    assert all[|done|] == b;
  }

  lemma PresentStep(views: seq<string>, book: map<string, Frame>, i: int)
    requires 0 <= i < |views|
    ensures Present(views[..i + 1], book)
      == Present(views[..i], book) + if views[i] in book then [Block(views[i], book[views[i]])] else []
  {
    TakeTake(views, i, i + 1);
  }

  lemma LayoutSnoc(blocks: seq<Block>, b: Block, s: int)
    ensures Layout(blocks + [b], s) == Layout(blocks, s) + BlockWrites(b, NextCol(blocks, s))
    ensures NextCol(blocks + [b], s) == NextCol(blocks, s) + Width(b) + 1
    ensures AllWide(blocks + [b]) == (AllWide(blocks) && Width(b) >= 1)
  {
    SnocInit(blocks, b);
    if AllWide(blocks) && Width(b) >= 1 {
      forall k | 0 <= k < |blocks| + 1
        ensures Width((blocks + [b])[k]) >= 1
      {
        if k < |blocks| {
          assert (blocks + [b])[k] == blocks[k];
        }
      }
    }
  }

  /** The blocks of a prefix of the views come first in the blocks of all. */
  lemma {:induction false} PresentPrefix(views: seq<string>, book: map<string, Frame>, i: int)
    requires 0 <= i <= |views|
    ensures var p := Present(views[..i], book); |p| <= |Present(views, book)| && p == Present(views, book)[..|p|]
    decreases |views| - i
  {
    if i < |views| {
      var n := |views| - 1;
      PresentPrefix(views[..n], book, i);
      TakeTake(views, i, n);
      var p, q := Present(views[..i], book), Present(views[..n], book);
      var all := Present(views, book);
      assert all == q + if views[n] in book then [Block(views[n], book[views[n]])] else [];
      assert all[..|q|] == q;
      TakeTake(all, |p|, |q|);
    } else {
      TakeAll(views);
    }
  }

  /** The blocks of the monthly database: the export's views, then the
      reference views. */
  function Blocks(exports: map<string, Frame>, refs: map<string, Frame>): seq<Block> {
    Present(TableauViews, exports) + Present(RefViews, refs)
  }

  /** `build_monthly_database` on the two workbooks' sheets: a new sheet
      titled "Database" laid out from column 1.  `Err` when some sheet
      pulled has no columns. */
  method BuildDatabase(exports: map<string, Frame>, refs: map<string, Frame>) returns (r: Result<int>, ws: Worksheet)
    ensures fresh(ws) && ws.Valid() && ws.title == DatabaseTitle
    ensures r.Ok? <==> AllWide(Blocks(exports, refs))
    ensures r.Ok? ==> ws.cells == Layout(Blocks(exports, refs), 1) && r.value == NextCol(Blocks(exports, refs), 1)
  {
    ws := new Worksheet(DatabaseTitle);
    var first := Present(TableauViews, exports);
    var second := Present(RefViews, refs);
    LayoutAppend(first, second, 1);
    AllWideAppend(first, second);
    r := WriteViews(ws, TableauViews, exports, 1);
    if r.Err? {
      return;
    }
    ghost var mid := ws.cells;
    var col := r.value;
    r := WriteViews(ws, RefViews, refs, col);
    if r.Ok? {
      EmptyUnion(Layout(first, 1));
      UnionAssoc(map[], Layout(first, 1), Layout(second, col));
    }
  }

  /** Laying out two lists one after the other is laying out their
      concatenation. */
  lemma {:induction false} LayoutAppend(a: seq<Block>, b: seq<Block>, s: int)
    ensures Layout(a + b, s) == Layout(a, s) + Layout(b, NextCol(a, s))
    ensures NextCol(a + b, s) == NextCol(b, NextCol(a, s))
  {
    if b == [] {
      assert a + b == a;
    } else {
      var init, x := b[..|b| - 1], b[|b| - 1];
      var ai := a + init;
      var s2 := NextCol(a, s);
      LayoutAppend(a, init, s);
      SnocSplit(b);
      ConcatAssoc(a, init, [x]);
      LayoutSnoc(ai, x, s);
      LayoutSnoc(init, x, s2);
      UnionAssoc(Layout(a, s), Layout(init, s2), BlockWrites(x, NextCol(ai, s)));
    }
  }

  lemma AllWideAppend(a: seq<Block>, b: seq<Block>)
    ensures AllWide(a + b) <==> AllWide(a) && AllWide(b)
  {
    if AllWide(a) && AllWide(b) {
      forall k | 0 <= k < |a + b|
        ensures Width((a + b)[k]) >= 1
      {
        if k >= |a| {
          assert (a + b)[k] == b[k - |a|];
        }
      }
    }
    if AllWide(a + b) {
      forall k | 0 <= k < |a|
        ensures Width(a[k]) >= 1
      {
        assert (a + b)[k] == a[k];
      }
      forall k | 0 <= k < |b|
        ensures Width(b[k]) >= 1
      {
        assert (a + b)[|a| + k] == b[k];
      }
    }
  }
}
