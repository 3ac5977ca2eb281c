/** The "P. VM - Adjustments" workbook builder: the cleaning of money text,
    the Project VM columns it sums, the split of the Database rows into the
    Current, Previous, Unallocated and Unassigned buckets, the formulas of
    the summary rows, the CK-vs-VM rows read back from the Comparison block
    of "PnL Pivot" and the rows of the manual grid.  The transload pre-fill
    and the final tab order are the modules Transload and TabOrder. */
module ProjectVmAdjustment {
  import opened Wrappers
  import opened Strings
  import opened Ordering
  import opened Cells
  import opened Seqs

  // ---------------------------------------------------------------- money text

  /** `str.replace(r"[,$]", "", regex=True)`: the text without its ',' and
      '$' characters. */
  function DropMoney(s: string): (r: string)
    ensures |r| <= |s|
  {
    if s == [] then []
    else if s[0] == ',' || s[0] == '$' then DropMoney(s[1..])
    else [s[0]] + DropMoney(s[1..])
  }

  /** Dropping works character by character, so it splits over `+`. */
  lemma {:induction false} DropMoneyAppend(a: string, b: string)
    ensures DropMoney(a + b) == DropMoney(a) + DropMoney(b)
  {
    if a == [] {
      assert a + b == b;
    } else {
      assert (a + b)[0] == a[0] && (a + b)[1..] == a[1..] + b;
      DropMoneyAppend(a[1..], b);
    }
  }

  /** What is left is every character but ',' and '$', in order. */
  lemma {:induction false} DropMoneyChars(s: string)
    ensures forall c :: c in DropMoney(s) <==> c in s && c != ',' && c != '$'
  {
    if s != [] {
      DropMoneyChars(s[1..]);
      assert forall c :: c in s <==> c == s[0] || c in s[1..];
    }
  }

  /** Text with neither character is left as it is. */
  lemma {:induction false} DropMoneyKeeps(s: string)
    requires ',' !in s && '$' !in s
    ensures DropMoney(s) == s
  {
    if s != [] {
      assert s[0] in s;
      assert forall c :: c in s[1..] ==> c in s;
      DropMoneyKeeps(s[1..]);
      assert s == [s[0]] + s[1..];
    }
  }

  /** Index of the last occurrence of `c`. */
  function LastIndex(s: string, c: char): (r: nat)
    requires c in s
    ensures r < |s| && s[r] == c && c !in s[r + 1..]
  {
    if s[|s| - 1] == c then |s| - 1
    else
      assert c in s[..|s| - 1] by {
        var i :| 0 <= i < |s| && s[i] == c;
        assert s[..|s| - 1][i] == c;
      }
      var r := LastIndex(s[..|s| - 1], c);
      assert s[r + 1..] == s[..|s| - 1][r + 1..] + [s[|s| - 1]];
      r
  }

  /** Index of the first '\n' at or after `p`, or the end of the text: the
      stretch a regex `.` can run over. */
  function LineEnd(s: string, p: nat): (r: nat)
    requires p <= |s|
    ensures p <= r <= |s| && (r < |s| ==> s[r] == '\n')
    ensures forall k :: p <= k < r ==> s[k] != '\n'
    decreases |s| - p
  {
    if p == |s| || s[p] == '\n' then p else LineEnd(s, p + 1)
  }

  /** `str.replace(r"\((.*)\)", r"-\1", regex=True)` from position `p` on.
      A match starts at a '(' that has a ')' after it before the next '\n'
      (`.` does not match a newline), and the greedy `.*` runs to the last
      such ')'.  The search resumes after the match, as `re.sub` does. */
  function UnparenFrom(s: string, p: nat): string
    requires p <= |s|
    decreases |s| - p
  {
    if p == |s| then []
    else
      var e := LineEnd(s, p + 1);
      var line := s[p + 1..e];
      if s[p] == '(' && ')' in line then
        var j := p + 1 + LastIndex(line, ')');
        "-" + s[p + 1..j] + UnparenFrom(s, j + 1)
      else [s[p]] + UnparenFrom(s, p + 1)
  }

  /** The substitution over the whole text. */
  function Unparen(s: string): string {
    UnparenFrom(s, 0)
  }

  /** "(x)" becomes "-x" when `x` holds no newline. */
  lemma UnparenWrapped(t: string)
    requires '\n' !in t
    ensures Unparen("(" + t + ")") == "-" + t
  {
    var s := "(" + t + ")";
    assert forall k :: 1 <= k < |s| ==> s[k] != '\n' by {
      forall k | 1 <= k < |s| ensures s[k] != '\n' {
        if k <= |t| { assert s[k] == t[k - 1]; }
      }
    }
    assert LineEnd(s, 1) == |s|;
    var line := s[1..|s|];
    assert line == t + ")";
    assert line[|t|] == ')';
    assert LastIndex(line, ')') == |t|;
    assert s[1..|t| + 1] == t;
    assert UnparenFrom(s, |s|) == [];
    assert UnparenFrom(s, 0) == "-" + s[1..|t| + 1] + UnparenFrom(s, |t| + 2);
  }

  /** From a position with no '(' after it the text is left as it is. */
  lemma {:induction false} UnparenFromKeeps(s: string, p: nat)
    requires p <= |s| && forall k :: p <= k < |s| ==> s[k] != '('
    ensures UnparenFrom(s, p) == s[p..]
    decreases |s| - p
  {
    if p < |s| {
      UnparenFromKeeps(s, p + 1);
      assert s[p..] == [s[p]] + s[p + 1..];
    }
  }

  /** Text without '(' is left as it is. */
  lemma UnparenKeeps(s: string)
    requires '(' !in s
    ensures Unparen(s) == s
  {
    UnparenFromKeeps(s, 0);
  }

  /** A newline between '(' and ')' stops the match: "(x\ny)" is left as it
      is when neither part holds a bracket and `x` holds no newline. */
  lemma UnparenAcrossLine(x: string, y: string)
    requires '(' !in x && ')' !in x && '\n' !in x && '(' !in y
    ensures Unparen("(" + x + "\n" + y + ")") == "(" + x + "\n" + y + ")"
  {
    var s := "(" + x + "\n" + y + ")";
    assert forall k :: 1 <= k < |x| + 1 ==> s[k] == x[k - 1];
    assert s[|x| + 1] == '\n';
    assert LineEnd(s, 1) == |x| + 1;
    assert s[1..|x| + 1] == x;
    assert forall k :: 1 <= k < |s| ==> s[k] != '(' by {
      forall k | 1 <= k < |s| ensures s[k] != '(' {
        if k <= |x| { assert s[k] == x[k - 1]; }
        else if |x| + 1 < k < |s| - 1 { assert s[k] == y[k - |x| - 2]; }
      }
    }
    UnparenFromKeeps(s, 1);
    assert s == [s[0]] + s[1..];
  }

  /** `_to_number` on one value (lines 130-134): its `str()`, without ','
      and '$', "(x)" rewritten as "-x", then `pd.to_numeric` with
      `errors="coerce"`, which reads the literals `float()` reads, except
      those with underscores.  `None` is NaN.  A float keeps its value (its
      `str()` reads back as itself); a blank reads "None" and a date its ISO
      text, which are no numbers. */
  function ToNumber(c: Cell): (r: Option<real>)
    ensures c.Int? ==> r == Some(c.i as real)
    ensures c.Num? ==> r == Some(c.x)
    ensures c.Empty? || c.Stamp? ==> r.None?
  {
    match c
    case Text(s) => ToNumeric(Unparen(DropMoney(s)))
    case Int(i) => IntCleans(i); ToNumeric(Unparen(DropMoney(IntText(i))))
    case Num(x) => Some(x)
    case _ => None
  }

  /** The text of an integer has no character the cleaning touches. */
  lemma IntCleans(i: int)
    ensures Unparen(DropMoney(IntText(i))) == IntText(i)
    ensures ToNumeric(IntText(i)) == Some(i as real)
  {
    var t := IntText(i);
    var d := NatText(if i >= 0 then i else -i);
    assert t == d || t == "-" + d;
    assert forall c :: c in t ==> c == '-' || c in d;
    assert forall c :: c in d ==> IsDigit(c);
    DropMoneyKeeps(t);
    UnparenKeeps(t);
    IntTextParses(i);
  }

  /** A parenthesised digit string is its negative. */
  lemma ToNumberParenthesised(t: string)
    requires |t| > 0 && AllDigits(t)
    ensures ToNumber(Text("(" + t + ")")) == Some(-(DigitsValue(t) as real))
  {
    var s := "(" + t + ")";
    assert forall c :: c in s ==> c == '(' || c == ')' || c in t;
    assert forall c :: c in t ==> IsDigit(c);
    DropMoneyKeeps(s);
    UnparenWrapped(t);
    DigitsTextParses(t);
  }

  /** Text that opens with '(' reads as no number. */
  lemma ParenNoNumber(s: string)
    requires |s| > 0 && s[0] == '(' && Trimmed(s)
    ensures ToNumeric(s).None?
  {
    StripTrimmed(s);
    var p := FindMark(s, 0);
    if p > 0 {
      var m := s[..p];
      var q := Find(m, '.', 0);
      if q > 0 {
        assert m[..q][0] == '(';
      }
    }
  }

  /** A newline before the ')' leaves the parentheses in place, and the
      text is no number: "(5\n)" is NaN. */
  lemma ToNumberAcrossLine(t: string)
    requires AllDigits(t)
    ensures ToNumber(Text("(" + t + "\n)")).None?
  {
    var s := "(" + t + "\n)";
    assert forall c :: c in s ==> c == '(' || c == ')' || c == '\n' || c in t;
    assert forall c :: c in t ==> IsDigit(c);
    DropMoneyKeeps(s);
    assert "(" + t + "\n" + "" + ")" == s;
    UnparenAcrossLine(t, "");
    ParenNoNumber(s);
  }

  /** "$" and thousands separators are ignored: "$1,234" is 1234. */
  lemma ToNumberDollars(a: string, b: string)
    requires |a| > 0 && AllDigits(a) && AllDigits(b)
    ensures ToNumber(Text("$" + a + "," + b)) == Some(DigitsValue(a + b) as real)
  {
    assert forall c :: c in a ==> IsDigit(c);
    assert forall c :: c in b ==> IsDigit(c);
    DropMoneyKeeps(a);
    DropMoneyKeeps(b);
    DropMoneyAppend("$", a + "," + b);
    DropMoneyAppend("$" + a, "," + b);
    assert "$" + a + "," + b == ("$" + a) + ("," + b);
    DropMoneyAppend("$", a);
    DropMoneyAppend(",", b);
    var t := a + b;
    assert DropMoney("$" + a + "," + b) == t;
    assert AllDigits(t) by {
      forall k | 0 <= k < |t| ensures IsDigit(t[k]) {
        if k < |a| { assert t[k] == a[k]; } else { assert t[k] == b[k - |a|]; }
      }
    }
    assert forall c :: c in t ==> IsDigit(c);
    UnparenKeeps(t);
    DigitsTextParses(t);
  }

  // ---------------------------------------------------------------- constants

  /** 1-based Database columns (lines 46-48). */
  const ProjCol: nat := 42
  const EngBasinCol: nat := 43
  const MainPadCol: nat := 1
  const PrevPadCol: nat := 115
  const FxCadCol: nat := 124
  const FxAudCol: nat := 125

  /** Where each Project VM amount is expected in the Database sheet. */
  const VmColIdx: map<string, nat> := map[
    "Service Rev" := 45, "Prop Rev" := 46, "Proppant Handling Revenue" := 47,
    "Chem Rev" := 48, "Fuel Rev" := 49, "Prop Cost" := 50, "Truck Cost" := 51,
    "Chemical and Gel cost" := 52, "Fuel Cost" := 53,
    "Mat and Containment Costs" := 54, "Other Pad Costs" := 55,
    "Allocation VM" := 56]

  /** The summary columns, in the order of the summary sheet and the
      manual grid. */
  const SummaryFields: seq<string> := [
    "REVENUE", "SERVICE REV", "PROP REV", "TRUCK REV", "CHEM REV", "FUEL REV",
    "MISC REV", "VARIABLE COST", "PROP COST", "TRUCK COST", "CHEM COST",
    "FUEL COST", "MAT COST", "OTHER PAD COST", "ALLOC VM COST", "MISC COST"]

  /** The Project VM columns that add up to each summary field. */
  const VmSumMap: map<string, seq<string>> := map[
    "REVENUE" := ["Service Rev", "Prop Rev", "Proppant Handling Revenue", "Chem Rev", "Fuel Rev"],
    "SERVICE REV" := ["Service Rev"],
    "PROP REV" := ["Prop Rev"],
    "TRUCK REV" := ["Proppant Handling Revenue"],
    "CHEM REV" := ["Chem Rev"],
    "FUEL REV" := ["Fuel Rev"],
    "MISC REV" := [],
    "VARIABLE COST" := ["Prop Cost", "Truck Cost", "Chemical and Gel cost", "Fuel Cost",
                        "Mat and Containment Costs", "Other Pad Costs", "Allocation VM"],
    "PROP COST" := ["Prop Cost"],
    "TRUCK COST" := ["Truck Cost"],
    "CHEM COST" := ["Chemical and Gel cost"],
    "FUEL COST" := ["Fuel Cost"],
    "MAT COST" := ["Mat and Containment Costs"],
    "OTHER PAD COST" := ["Other Pad Costs"],
    "ALLOC VM COST" := ["Allocation VM"],
    "MISC COST" := []]

  /** Fields whose pivot value is negated in the CK-vs-VM rows. */
  const CostFields: set<string> := {
    "PROP COST", "TRUCK COST", "CHEM COST", "FUEL COST", "MAT COST",
    "OTHER PAD COST", "ALLOC VM COST"}

  /** Fields whose summary formulas take the cost sign (lines 357-360). */
  const AddHeaders: set<string> := {
    "VARIABLE COST", "PROP COST", "TRUCK COST", "CHEM COST", "FUEL COST",
    "MAT COST", "OTHER PAD COST", "ALLOC VM COST", "MISC COST"}

  /** The summary fields are exactly the keys of the sum map. */
  lemma SumMapComplete()
    ensures forall f :: f in VmSumMap <==> f in SummaryFields
  {
  }

  /** The columns one summary field sums all have expected positions. */
  lemma SumMapHeads(g: string)
    requires g in VmSumMap
    ensures forall h :: h in VmSumMap[g] ==> h in VmColIdx
  {
  }

  lemma AllHeadsKnown()
    ensures forall g, h :: g in VmSumMap && h in VmSumMap[g] ==> h in VmColIdx
  {
    forall g | g in VmSumMap {
      SumMapHeads(g);
    }
  }

  /** Expected positions are 1-based. */
  lemma ColIdxPositive()
    ensures forall h :: h in VmColIdx ==> VmColIdx[h] >= 1
  {
  }

  // ---------------------------------------------------------------- Database frame

  /** The Database sheet from its header row (row 2) down: the header cells,
      text stripped, and the data rows. */
  datatype Frame = Frame(columns: seq<Cell>, rows: seq<seq<Cell>>)

  /** `df.iloc[k, idx]`; a short row reads blank past its end. */
  function Item(row: seq<Cell>, idx: nat): Cell {
    if idx < |row| then row[idx] else Empty
  }

  // ---------------------------------------------------------------- column choice

  /** `_col_series`'s choice of column (0-based): the expected position when
      the frame is that wide, else the first column with that header. */
  function ColIndex(columns: seq<Cell>, header: string): (r: Result<nat>)
    requires header in VmColIdx
    ensures VmColIdx[header] - 1 < |columns| ==> r == Ok(VmColIdx[header] - 1)
    ensures VmColIdx[header] - 1 >= |columns| ==>
      (r.Ok? <==> Text(header) in columns) &&
      (r.Ok? ==> r.value < |columns| && columns[r.value] == Text(header) &&
                 Text(header) !in columns[..r.value])
    ensures r.Err? ==> r.error == "Header '" + header + "' not found in DataFrame"
  {
    ColIdxPositive();
    var idx := VmColIdx[header] - 1;
    if idx < |columns| then Ok(idx)
    else match IndexOf(columns, Text(header))
      case Some(i) => Ok(i)
      case None => Err("Header '" + header + "' not found in DataFrame")
  }

  /** The numbers of one column, row by row; `None` is NaN. */
  function ColumnNumbers(rows: seq<seq<Cell>>, idx: nat): (xs: seq<Option<real>>)
    ensures |xs| == |rows|
    ensures forall k :: 0 <= k < |rows| ==> xs[k] == ToNumber(Item(rows[k], idx))
  {
    seq(|rows|, k requires 0 <= k < |rows| => ToNumber(Item(rows[k], idx)))
  }

  /** `_col_series(df, header)` (lines 153-162): the chosen column through
      `_to_number`, or the RuntimeError when no column qualifies. */
  function ColSeries(f: Frame, header: string): (r: Result<seq<Option<real>>>)
    requires header in VmColIdx
    ensures r.Ok? <==> ColIndex(f.columns, header).Ok?
    ensures r.Ok? ==> r.value == ColumnNumbers(f.rows, ColIndex(f.columns, header).value)
  {
    var idx :- ColIndex(f.columns, header);
    Ok(ColumnNumbers(f.rows, idx))
  }

  /** `.dropna().iloc[-1]`: the last number of a column; `None` is the
      IndexError of a column without one (lines 272-273). */
  function LastNumber(xs: seq<Option<real>>): (r: Option<real>)
    ensures r.Some? <==> exists k :: 0 <= k < |xs| && xs[k].Some?
  {
    if xs == [] then None
    else if xs[|xs| - 1].Some? then xs[|xs| - 1]
    else
      var r := LastNumber(xs[..|xs| - 1]);
      assert forall k :: 0 <= k < |xs| - 1 ==> xs[..|xs| - 1][k] == xs[k];
      r
  }

  /** The value `LastNumber` gives is the number at some position, and
      every later position is NaN. */
  lemma {:induction false} LastNumberIsLast(xs: seq<Option<real>>)
    requires LastNumber(xs).Some?
    ensures exists k :: 0 <= k < |xs| && xs[k] == LastNumber(xs) &&
                        forall j :: k < j < |xs| ==> xs[j].None?
  {
    if xs[|xs| - 1].Some? {
      assert xs[|xs| - 1] == LastNumber(xs);
    } else {
      var init := xs[..|xs| - 1];
      LastNumberIsLast(init);
      var k :| 0 <= k < |init| && init[k] == LastNumber(init) &&
               forall j :: k < j < |init| ==> init[j].None?;
      assert xs[k] == init[k];
      assert forall j :: k < j < |xs| - 1 ==> xs[j] == init[j];
    }
  }

  /** `conv` (lines 274-278): the factor that takes a row's amounts to USD,
      by the stripped text of its ENG BASIN R1.  The factors themselves,
      `1/fx_cad` and `1/fx_au`, are given. */
  function Conv(eng: Cell, cad: real, aud: real): (r: real)
    ensures r == cad || r == aud || r == 1.0
  {
    match PyStr(eng)
    case Some(t) => if Strip(t) == "CA" then cad else if Strip(t) == "AU" then aud else 1.0
    case None => 1.0
  }

  /** A basin written without surrounding blanks picks CAD for "CA", AUD
      for "AU" and no conversion otherwise. */
  lemma ConvTrimmed(t: string, cad: real, aud: real)
    requires Trimmed(t)
    ensures Conv(Text(t), cad, aud) == if t == "CA" then cad else if t == "AU" then aud else 1.0
  {
    StripTrimmed(t);
  }

  // ---------------------------------------------------------------- projects

  /** The project text of one Database row (lines 303-305): a number
      truncated and zero-padded to six, anything else its stripped `str()`. */
  function ProjectText(c: Cell): (r: string)
    ensures c.Int? ==> r == SixWide(c.i)
    ensures c.Num? ==> r == SixWide(Trunc(c.x))
    ensures c.Text? ==> r == Strip(c.s)
  {
    match c
    case Int(i) => SixWide(i)
    case Num(x) => SixWide(Trunc(x))
    case Text(s) => Strip(s)
    case Empty => "None"
    case Stamp(y, m, d) => StampText(y, m, d)
  }

  /** A numeric project reads as six digits exactly when it lies in
      0..999999, and those six digits spell the number. */
  lemma ProjectDigits(i: int)
    ensures IsSixDigits(ProjectText(Int(i))) <==> 0 <= i < 1000000
    ensures 0 <= i < 1000000 ==> DigitsValue(ProjectText(Int(i))) == i
  {
    SixWideIsSixDigits(i);
  }

  /** One pad number as a set member (lines 306-315): `pd.to_numeric`,
      truncated to an integer, as text; `None` for what is dropped as NaN. */
  function PadKey(c: Cell): Option<string> {
    match FloatOf(c)
    case Some(x) => Some(IntText(Trunc(x)))
    case None => None
  }

  /** Integers stand for themselves, unpadded; blanks and dates are no
      pads. */
  lemma PadKeyOf(c: Cell)
    ensures c.Int? ==> PadKey(c) == Some(IntText(c.i))
    ensures c.Empty? || c.Stamp? ==> PadKey(c).None?
  {
  }

  /** The cells of one column, row by row. */
  function Column(rows: seq<seq<Cell>>, idx: nat): (cs: seq<Cell>)
    ensures |cs| == |rows| && forall k :: 0 <= k < |rows| ==> cs[k] == Item(rows[k], idx)
  {
    seq(|rows|, k requires 0 <= k < |rows| => Item(rows[k], idx))
  }

  /** The set of the keys `key` gives the cells, skipping `None`. */
  function KeySet(cs: seq<Cell>, key: Cell -> Option<string>): set<string> {
    if cs == [] then {}
    else
      var rest := KeySet(cs[..|cs| - 1], key);
      match key(cs[|cs| - 1])
      case Some(t) => rest + {t}
      case None => rest
  }

  /** A text is in the set exactly when some cell gives it. */
  lemma {:induction false} KeySetMembers(cs: seq<Cell>, key: Cell -> Option<string>, t: string)
    ensures t in KeySet(cs, key) <==> exists k :: 0 <= k < |cs| && key(cs[k]) == Some(t)
  {
    if cs != [] {
      var init := cs[..|cs| - 1];
      var n := |cs| - 1;
      KeySetMembers(init, key, t);
      if t in KeySet(cs, key) {
        if t in KeySet(init, key) {
          var k :| 0 <= k < |init| && key(init[k]) == Some(t);
          assert cs[k] == init[k];
        } else {
          assert key(cs[n]) == Some(t);
        }
      }
      if exists k :: 0 <= k < |cs| && key(cs[k]) == Some(t) {
        var k :| 0 <= k < |cs| && key(cs[k]) == Some(t);
        if k < n {
          assert init[k] == cs[k];
        }
      }
    }
  }

  /** The pad set of one Database column. */
  function PadKeys(cs: seq<Cell>): set<string> {
    KeySet(cs, PadKey)
  }

  /** A text is a pad exactly when some cell of the column gives it. */
  lemma PadKeysMembers(cs: seq<Cell>, t: string)
    ensures t in PadKeys(cs) <==> exists k :: 0 <= k < |cs| && PadKey(cs[k]) == Some(t)
  {
    KeySetMembers(cs, PadKey, t);
  }

  // ---------------------------------------------------------------- buckets

  datatype Bucket = Current | Previous | Unalloc | Unass

  /** The masks of lines 316-321, as written. */
  predicate InMask(b: Bucket, p: string, main: set<string>, prev: set<string>) {
    match b
    case Current => p in main && IsSixDigits(p)
    case Previous => p !in main && p in prev && IsSixDigits(p)
    case Unalloc => !IsSixDigits(p)
    case Unass => p !in main + prev && IsSixDigits(p)
  }

  /** The one bucket a project falls in. */
  function BucketOf(p: string, main: set<string>, prev: set<string>): Bucket {
    if !IsSixDigits(p) then Unalloc
    else if p in main then Current
    else if p in prev then Previous
    else Unass
  }

  /** The four masks partition the rows: each project is in exactly one,
      the one `BucketOf` names. */
  lemma Partition(p: string, main: set<string>, prev: set<string>, b: Bucket)
    ensures InMask(b, p, main, prev) <==> b == BucketOf(p, main, prev)
  {
  }

  /** Unalloc holds exactly the projects whose text is not six digits. */
  lemma UnallocExactly(p: string, main: set<string>, prev: set<string>)
    ensures BucketOf(p, main, prev) == Unalloc <==> !IsSixDigits(p)
  {
  }

  // ---------------------------------------------------------------- sums

  /** One row's share of a summary field: its numbers in the given columns
      in USD, NaN counting as nothing (`.sum(axis=1)` skips it). */
  function RowAmount(row: seq<Cell>, idxs: seq<nat>, conv: real): real {
    if idxs == [] then 0.0
    else
      var rest := RowAmount(row, idxs[..|idxs| - 1], conv);
      match ToNumber(Item(row, idxs[|idxs| - 1]))
      case Some(x) => rest + x * conv
      case None => rest
  }

  /** Each row's share, in row order. */
  function Amounts(rows: seq<seq<Cell>>, idxs: seq<nat>, cad: real, aud: real): (a: seq<real>)
    ensures |a| == |rows|
    ensures forall k :: 0 <= k < |rows| ==>
      a[k] == RowAmount(rows[k], idxs, Conv(Item(rows[k], EngBasinCol - 1), cad, aud))
  {
    seq(|rows|, k requires 0 <= k < |rows| =>
      RowAmount(rows[k], idxs, Conv(Item(rows[k], EngBasinCol - 1), cad, aud)))
  }

  /** The bucket of each row. */
  function Buckets(rows: seq<seq<Cell>>, main: set<string>, prev: set<string>): (bs: seq<Bucket>)
    ensures |bs| == |rows|
    ensures forall k :: 0 <= k < |rows| ==>
      bs[k] == BucketOf(ProjectText(Item(rows[k], ProjCol - 1)), main, prev)
  {
    seq(|rows|, k requires 0 <= k < |rows| =>
      BucketOf(ProjectText(Item(rows[k], ProjCol - 1)), main, prev))
  }

  function Total(a: seq<real>): real {
    if a == [] then 0.0 else Total(a[..|a| - 1]) + a[|a| - 1]
  }

  /** The sum over the rows of one bucket (`df.loc[mask]`). */
  function BucketTotal(a: seq<real>, bs: seq<Bucket>, b: Bucket): real
    requires |a| == |bs|
  {
    if a == [] then 0.0
    else BucketTotal(a[..|a| - 1], bs[..|bs| - 1], b) + (if bs[|bs| - 1] == b then a[|a| - 1] else 0.0)
  }

  /** The four bucket rows add up to the Project VM Total row. */
  lemma {:induction false} BucketsAddUp(a: seq<real>, bs: seq<Bucket>)
    requires |a| == |bs|
    ensures BucketTotal(a, bs, Current) + BucketTotal(a, bs, Previous)
          + BucketTotal(a, bs, Unalloc) + BucketTotal(a, bs, Unass) == Total(a)
  {
    if a != [] {
      BucketsAddUp(a[..|a| - 1], bs[..|bs| - 1]);
    }
  }

  /** A bucket nobody falls in sums to zero. */
  lemma {:induction false} EmptyBucket(a: seq<real>, bs: seq<Bucket>, b: Bucket)
    requires |a| == |bs| && b !in bs
    ensures BucketTotal(a, bs, b) == 0.0
  {
    if a != [] {
      assert bs[..|bs| - 1] <= bs;
      EmptyBucket(a[..|a| - 1], bs[..|bs| - 1], b);
    }
  }

  /** The columns of a summary field, each resolved by `_col_series`. */
  function FieldIndexes(columns: seq<Cell>, headers: seq<string>): (r: Result<seq<nat>>)
    requires forall h :: h in headers ==> h in VmColIdx
    ensures r.Ok? <==> forall h :: h in headers ==> ColIndex(columns, h).Ok?
    ensures r.Ok? ==> |r.value| == |headers|
    ensures r.Ok? ==> forall j :: 0 <= j < |headers| ==> r.value[j] == ColIndex(columns, headers[j]).value
  {
    if headers == [] then Ok([])
    else
      var init := headers[..|headers| - 1];
      assert forall h :: h in headers <==> h in init || h == headers[|headers| - 1];
      var front :- FieldIndexes(columns, init);
      var i :- ColIndex(columns, headers[|headers| - 1]);
      Ok(front + [i])
  }

  /** The figures of one summary row (`vm_totals` or `_bucket(mask)`, lines
      294-301 and 322-328), field by field; `bucket == None` takes every
      row.  A field without columns is 0.0; a missing column is the error. */
  function FieldSums(f: Frame, cad: real, aud: real, pads: (set<string>, set<string>),
                     bucket: Option<Bucket>, fields: seq<string>): (r: Result<seq<real>>)
    requires forall g :: g in fields ==> g in VmSumMap
    ensures r.Ok? ==> |r.value| == |fields|
  {
    if fields == [] then Ok([])
    else
      var init := fields[..|fields| - 1];
      assert forall g :: g in init ==> g in fields;
      var sums :- FieldSums(f, cad, aud, pads, bucket, init);
      var x :- FieldSum(f, cad, aud, pads, bucket, fields[|fields| - 1]);
      Ok(sums + [x])
  }

  /** The sum of one summary field over the rows of `bucket` (all rows
      for `None`): 0 for a field with no Project VM columns. */
  function FieldSum(f: Frame, cad: real, aud: real, pads: (set<string>, set<string>),
                    bucket: Option<Bucket>, g: string): Result<real>
    requires g in VmSumMap
  {
    var heads := VmSumMap[g];
    SumMapHeads(g);
    if heads == [] then Ok(0.0)
    else
      var idxs :- FieldIndexes(f.columns, heads);
      var a := Amounts(f.rows, idxs, cad, aud);
      var bs := Buckets(f.rows, pads.0, pads.1);
      Ok(if bucket.None? then Total(a) else BucketTotal(a, bs, bucket.value))
  }

  /** One field: its sum can be formed for every bucket or for none, and
      the four bucket sums add up to its total. */
  lemma FieldSumAddsUp(f: Frame, cad: real, aud: real, pads: (set<string>, set<string>), g: string)
    requires g in VmSumMap
    ensures forall b :: FieldSum(f, cad, aud, pads, Some(b), g).Ok? <==> FieldSum(f, cad, aud, pads, None, g).Ok?
    ensures FieldSum(f, cad, aud, pads, None, g).Ok? ==>
      FieldSum(f, cad, aud, pads, Some(Current), g).value + FieldSum(f, cad, aud, pads, Some(Previous), g).value
      + FieldSum(f, cad, aud, pads, Some(Unalloc), g).value + FieldSum(f, cad, aud, pads, Some(Unass), g).value
      == FieldSum(f, cad, aud, pads, None, g).value
  {
    var heads := VmSumMap[g];
    SumMapHeads(g);
    if heads != [] && FieldIndexes(f.columns, heads).Ok? {
      var a := Amounts(f.rows, FieldIndexes(f.columns, heads).value, cad, aud);
      BucketsAddUp(a, Buckets(f.rows, pads.0, pads.1));
    }
  }

  /** The five summary rows the Database gives: the Project VM Total and the
      four buckets (rows 4 and 6-9). */
  datatype Summary = Summary(totals: seq<real>, current: seq<real>, previous: seq<real>,
                             unalloc: seq<real>, unass: seq<real>)

  /** `main_pads` and `prev_pads`. */
  function Pads(f: Frame): (set<string>, set<string>) {
    (PadKeys(Column(f.rows, MainPadCol - 1)), PadKeys(Column(f.rows, PrevPadCol - 1)))
  }

  function SummaryFigures(f: Frame, cad: real, aud: real): (r: Result<Summary>)
    ensures r.Ok? ==> |r.value.totals| == |r.value.current| == |r.value.previous| ==
                      |r.value.unalloc| == |r.value.unass| == |SummaryFields|
  {
    SumMapComplete();
    var pads := Pads(f);
    var t :- FieldSums(f, cad, aud, pads, None, SummaryFields);
    var c :- FieldSums(f, cad, aud, pads, Some(Current), SummaryFields);
    var p :- FieldSums(f, cad, aud, pads, Some(Previous), SummaryFields);
    var u :- FieldSums(f, cad, aud, pads, Some(Unalloc), SummaryFields);
    var n :- FieldSums(f, cad, aud, pads, Some(Unass), SummaryFields);
    Ok(Summary(t, c, p, u, n))
  }

  /** Whether a field's sums can be formed does not depend on the rows they
      take, and the four bucket sums of each field add up to its total. */
  lemma {:induction false} FieldSumsAddUp(f: Frame, cad: real, aud: real, pads: (set<string>, set<string>),
                                          fields: seq<string>)
    requires forall g :: g in fields ==> g in VmSumMap
    ensures forall b :: FieldSums(f, cad, aud, pads, Some(b), fields).Ok? <==>
                        FieldSums(f, cad, aud, pads, None, fields).Ok?
    ensures FieldSums(f, cad, aud, pads, None, fields).Ok? ==>
      forall j :: 0 <= j < |fields| ==>
        FieldSums(f, cad, aud, pads, Some(Current), fields).value[j]
        + FieldSums(f, cad, aud, pads, Some(Previous), fields).value[j]
        + FieldSums(f, cad, aud, pads, Some(Unalloc), fields).value[j]
        + FieldSums(f, cad, aud, pads, Some(Unass), fields).value[j]
        == FieldSums(f, cad, aud, pads, None, fields).value[j]
  {
    if fields != [] {
      var init := fields[..|fields| - 1];
      assert forall g :: g in init ==> g in fields;
      FieldSumsAddUp(f, cad, aud, pads, init);
      FieldSumAddsUp(f, cad, aud, pads, fields[|fields| - 1]);
    }
  }

  /** Whenever the figures can be formed, each field's bucket rows 6-9 add
      up to its Project VM Total in row 4; they fail exactly when a needed
      Project VM column is missing. */
  lemma SummaryAddsUp(f: Frame, cad: real, aud: real, j: nat)
    requires SummaryFigures(f, cad, aud).Ok? && j < |SummaryFields|
    ensures var s := SummaryFigures(f, cad, aud).value;
      s.current[j] + s.previous[j] + s.unalloc[j] + s.unass[j] == s.totals[j]
  {
    SumMapComplete();
    FieldSumsAddUp(f, cad, aud, Pads(f), SummaryFields);
  }

  /** The figures fail exactly when some Project VM column is missing. */
  lemma SummaryFiguresOk(f: Frame, cad: real, aud: real)
    ensures SummaryFigures(f, cad, aud).Ok? <==> ColumnsFound(f.columns)
  {
    SumMapComplete();
    FieldSumsAddUp(f, cad, aud, Pads(f), SummaryFields);
    FieldSumsOk(f, cad, aud, Pads(f), None, SummaryFields);
    if ColumnsFound(f.columns) {
      forall g | g in SummaryFields
        ensures FieldFound(f.columns, g)
      {
        SumMapHeads(g);
      }
    } else {
      EveryColumnUsed();
      assert !FieldFound(f.columns, "REVENUE") || !FieldFound(f.columns, "VARIABLE COST");
    }
  }

  /** `_col_series` finds every Project VM column. */
  predicate ColumnsFound(columns: seq<Cell>) {
    forall h :: h in VmColIdx ==> HeaderFound(columns, h)
  }

  /** Every Project VM column feeds REVENUE or VARIABLE COST. */
  lemma EveryColumnUsed()
    ensures forall h :: h in VmColIdx ==> h in VmSumMap["REVENUE"] || h in VmSumMap["VARIABLE COST"]
    ensures "REVENUE" in SummaryFields && "VARIABLE COST" in SummaryFields
  {
    assert SummaryFields[0] == "REVENUE" && SummaryFields[7] == "VARIABLE COST";
  }

  /** `_col_series` finds every Project VM column field `g` sums. */
  predicate FieldFound(columns: seq<Cell>, g: string) {
    g in VmSumMap && forall h :: h in VmSumMap[g] ==> HeaderFound(columns, h)
  }

  /** Header `h` is found: the frame reaches its expected position, or has
      a column of that name. */
  predicate HeaderFound(columns: seq<Cell>, h: string) {
    h in VmColIdx && (VmColIdx[h] - 1 < |columns| || Text(h) in columns)
  }

  lemma ColIndexOk(columns: seq<Cell>, h: string)
    requires h in VmColIdx
    ensures ColIndex(columns, h).Ok? <==> HeaderFound(columns, h)
  {
  }

  /** Field sums fail exactly when one of the fields needs a column that
      `_col_series` cannot find. */
  lemma {:induction false} FieldSumsOk(f: Frame, cad: real, aud: real, pads: (set<string>, set<string>),
                                       bucket: Option<Bucket>, fields: seq<string>)
    requires forall g :: g in fields ==> g in VmSumMap
    ensures FieldSums(f, cad, aud, pads, bucket, fields).Ok? <==>
      forall g :: g in fields ==> FieldFound(f.columns, g)
  {
    if fields != [] {
      var init, last := fields[..|fields| - 1], fields[|fields| - 1];
      assert forall g :: g in fields <==> g in init || g == last;
      FieldSumsSnoc(f, cad, aud, pads, bucket, fields);
      FieldSumsOk(f, cad, aud, pads, bucket, init);
      FieldSumOk(f, cad, aud, pads, bucket, last);
    }
  }

  /** The sums of a list of fields are those of all but the last, then the
      last one's. */
  lemma FieldSumsSnoc(f: Frame, cad: real, aud: real, pads: (set<string>, set<string>),
                      bucket: Option<Bucket>, fields: seq<string>)
    requires fields != [] && forall g :: g in fields ==> g in VmSumMap
    ensures var init, last := fields[..|fields| - 1], fields[|fields| - 1];
      && (forall g :: g in init ==> g in VmSumMap)
      && (FieldSums(f, cad, aud, pads, bucket, fields).Ok? <==>
          FieldSums(f, cad, aud, pads, bucket, init).Ok? && FieldSum(f, cad, aud, pads, bucket, last).Ok?)
      && (FieldSums(f, cad, aud, pads, bucket, fields).Ok? ==>
          FieldSums(f, cad, aud, pads, bucket, fields).value ==
          FieldSums(f, cad, aud, pads, bucket, init).value + [FieldSum(f, cad, aud, pads, bucket, last).value])
  {
    assert forall g :: g in fields[..|fields| - 1] ==> g in fields;
  }

  lemma FieldSumOk(f: Frame, cad: real, aud: real, pads: (set<string>, set<string>), bucket: Option<Bucket>, g: string)
    requires g in VmSumMap
    ensures FieldSum(f, cad, aud, pads, bucket, g).Ok? <==> FieldFound(f.columns, g)
  {
    SumMapHeads(g);
    forall h | h in VmSumMap[g] {
      ColIndexOk(f.columns, h);
    }
  }

  // ---------------------------------------------------------------- summary formulas

  /** Row 11, Necessary Adjustment (lines 366-375): `-CK - VM` for the cost
      headers and `CK - VM` for the others.  The source's comment says
      "-L2 + L4" for the cost case; the formula written is `=-L2-L4`. */
  function NecessaryFormula(field: string, col: nat): Expr {
    if field in AddHeaders then Sub(Neg(Ref(col, 2)), Ref(col, 4)) else Sub(Ref(col, 2), Ref(col, 4))
  }

  /** Row 12, Adjustment Subtotal: the manual grid from row 19 to row 200. */
  function SubtotalFormula(col: nat): Expr {
    SumRange(col, 19, 200)
  }

  /** Row 14, Adjusted P. VM Total: VM Total plus the subtotal. */
  function AdjustedFormula(col: nat): Expr {
    Add(Ref(col, 4), Ref(col, 12))
  }

  /** Row 15, CK Delta Check (lines 392-399): `CK + adjusted` for the cost
      headers and `CK - adjusted` for the others. */
  function DeltaFormula(field: string, col: nat): Expr {
    if field in AddHeaders then Add(Ref(col, 2), Ref(col, 14)) else Sub(Ref(col, 2), Ref(col, 14))
  }

  /** The necessary adjustment is `-CK - VM` for costs, `CK - VM` otherwise. */
  lemma NecessaryValue(field: string, col: nat, env: (nat, nat) -> real)
    ensures field in AddHeaders ==> Eval(NecessaryFormula(field, col), env) == Some(-env(col, 2) - env(col, 4))
    ensures field !in AddHeaders ==> Eval(NecessaryFormula(field, col), env) == Some(env(col, 2) - env(col, 4))
  {
    assert Eval(Neg(Ref(col, 2)), env) == Some(-env(col, 2));
  }

  /** The delta check is `CK + VM + subtotal` for costs and
      `CK - VM - subtotal` otherwise, once row 14 holds its formula's value. */
  lemma DeltaValue(field: string, col: nat, env: (nat, nat) -> real)
    requires Eval(AdjustedFormula(col), env) == Some(env(col, 14))
    ensures field in AddHeaders ==> Eval(DeltaFormula(field, col), env) == Some(env(col, 2) + env(col, 4) + env(col, 12))
    ensures field !in AddHeaders ==> Eval(DeltaFormula(field, col), env) == Some(env(col, 2) - env(col, 4) - env(col, 12))
  {
  }

  /** The two sign rules agree: for every field the delta check reads zero
      exactly when the manual subtotal equals the necessary adjustment. */
  lemma DeltaZeroIffBalanced(field: string, col: nat, env: (nat, nat) -> real)
    requires Eval(NecessaryFormula(field, col), env) == Some(env(col, 11))
    requires Eval(AdjustedFormula(col), env) == Some(env(col, 14))
    ensures Eval(DeltaFormula(field, col), env) == Some(0.0) <==> env(col, 12) == env(col, 11)
  {
    NecessaryValue(field, col, env);
    DeltaValue(field, col, env);
  }

  // ---------------------------------------------------------------- manual grid rows

  /** One amount of the manual grid: a number, NaN, or a formula. */
  datatype Amount = Number(x: real) | Missing | Calc(e: Expr)

  /** A row of the manual grid, in `MANUAL_COLUMNS` order: project, basin,
      period, the sixteen summary fields and the comment. */
  datatype ManualRow = ManualRow(project: Cell, basin: Cell, period: Cell, amounts: seq<Amount>, comment: string)

  const PivotSheet := "PnL Pivot"

  /** The value of an amount, given the values of the pivot's cells;
      `None` for NaN and for formulas other than a plain or negated pivot
      reference. */
  function AmountValue(a: Amount, pivot: (nat, nat) -> real): Option<real> {
    match a
    case Number(x) => Some(x)
    case Missing => None
    case Calc(Far(sh, c, r)) => if sh == PivotSheet then Some(pivot(c, r)) else None
    case Calc(Neg(Far(sh, c, r))) => if sh == PivotSheet then Some(-pivot(c, r)) else None
    case Calc(_) => None
  }

  // ---------------------------------------------------------------- CK vs VM rows

  /** `str(v).strip() == "Comparison"` (lines 206-207). */
  predicate IsComparisonTitle(c: Cell) {
    match PyStr(c)
    case Some(t) => Strip(t) == "Comparison"
    case None => false
  }

  /** The first of rows `r..last` that satisfies `p`, as `next(...)` over
      a generator finds it. */
  function FirstFrom(p: nat -> bool, r: nat, last: nat): Option<nat>
    decreases last + 1 - r
  {
    if r > last then None
    else if p(r) then Some(r)
    else FirstFrom(p, r + 1, last)
  }

  /** `FirstFrom` finds the topmost row of the range satisfying `p`, and
      finds nothing only when no row of the range does. */
  lemma {:induction false} FirstFromFirst(p: nat -> bool, r: nat, last: nat)
    ensures var t := FirstFrom(p, r, last);
      && (t.Some? ==> r <= t.value <= last && p(t.value))
      && (t.Some? ==> forall q :: r <= q < t.value ==> !p(q))
      && (t.None? ==> forall q :: r <= q <= last ==> !p(q))
    decreases last + 1 - r
  {
    if r <= last && !p(r) {
      FirstFromFirst(p, r + 1, last);
    }
  }

  /** The row of the Comparison title (lines 205-211). */
  function FindTitle(g: Grid): Option<nat> {
    FirstFrom(q => IsComparisonTitle(At(g, q, 1)), 1, MaxRow(g))
  }

  /** `if v in (None, "")`: where the header scan stops. */
  predicate HeaderStop(c: Cell) {
    c == Empty || c == Text("")
  }

  /** The key `str(v).strip()` of a header cell; the `str()` of a float is
      not modelled, and no summary field reads like one. */
  function HeaderKey(c: Cell): Option<string> {
    match PyStr(c)
    case Some(t) => Some(Strip(t))
    case None => None
  }

  /** The header cells from column `col` on, up to the first stop. */
  function HeaderRun(g: Grid, row: nat, col: nat): seq<Cell>
    decreases MaxCol(g) + 1 - col
  {
    if HeaderStop(At(g, row, col)) then []
    else
      assert col <= MaxCol(g) by {
        if col > MaxCol(g) {
          AtBeyondWidth(g, row, col);
        }
      }
      [At(g, row, col)] + HeaderRun(g, row, col + 1)
  }

  /** The run is the cells of columns `col`, `col + 1`, ..., none of them a
      stop, and the cell after it is one. */
  lemma {:induction false} HeaderRunCells(g: Grid, row: nat, col: nat)
    ensures HeaderStop(At(g, row, col + |HeaderRun(g, row, col)|))
    ensures forall q :: col <= q < col + |HeaderRun(g, row, col)| ==> !HeaderStop(At(g, row, q))
    ensures forall i :: 0 <= i < |HeaderRun(g, row, col)| ==> HeaderRun(g, row, col)[i] == At(g, row, col + i)
    decreases MaxCol(g) + 1 - col
  {
    if !HeaderStop(At(g, row, col)) {
      assert col <= MaxCol(g) by {
        if col > MaxCol(g) {
          AtBeyondWidth(g, row, col);
        }
      }
      HeaderRunCells(g, row, col + 1);
      var rest := HeaderRun(g, row, col + 1);
      var run := HeaderRun(g, row, col);
      assert run == [At(g, row, col)] + rest;
      forall i | 0 <= i < |run|
        ensures run[i] == At(g, row, col + i)
      {
        if i > 0 {
          var q := i - 1;
          assert rest[q] == At(g, row, (col + 1) + q);
          assert run[i] == rest[q];
        }
      }
    }
  }

  /** The keys of the cells of a run. */
  function HeaderKeys(cells: seq<Cell>): seq<Option<string>> {
    Map(cells, HeaderKey)
  }

  /** The header map of header row `row`, from column B on. */
  function HeaderMapAt(g: Grid, row: nat): map<string, nat> {
    KeyColumns(HeaderKeys(HeaderRun(g, row, 2)), 2)
  }

  /** `header_map` over the keys of a run starting at column `start`: a
      later key overwrites an earlier one. */
  function KeyColumns(keys: seq<Option<string>>, start: nat): map<string, nat> {
    if keys == [] then map[]
    else
      var n := |keys| - 1;
      match keys[n]
      case Some(k) => KeyColumns(keys[..n], start)[k := start + n]
      case None => KeyColumns(keys[..n], start)
  }

  /** The keys of the map are exactly the keys of the run. */
  lemma {:induction false} KeyColumnsKeys(keys: seq<Option<string>>, start: nat, k: string)
    ensures k in KeyColumns(keys, start) <==> Some(k) in keys
  {
    if keys != [] {
      var n := |keys| - 1;
      KeyColumnsKeys(keys[..n], start, k);
      assert keys == keys[..n] + [keys[n]];
    }
  }

  /** A key maps to the column of the LAST position carrying it. */
  lemma {:induction false} KeyColumnsLast(keys: seq<Option<string>>, start: nat, k: string, i: nat)
    requires i < |keys| && keys[i] == Some(k)
    ensures var m := KeyColumns(keys, start);
      && k in m && start + i <= m[k] < start + |keys| && keys[m[k] - start] == Some(k)
      && forall j :: m[k] - start < j < |keys| ==> keys[j] != Some(k)
  {
    var n := |keys| - 1;
    var init := keys[..n];
    if keys[n] != Some(k) {
      assert init[i] == keys[i];
      KeyColumnsLast(init, start, k, i);
      var mi := KeyColumns(init, start);
      assert KeyColumns(keys, start)[k] == mi[k];
      var j := mi[k] - start;
      assert keys[j] == init[j];
      forall q | j < q < |keys|
        ensures keys[q] != Some(k)
      {
        if q < n {
          assert keys[q] == init[q];
        }
      }
    }
  }

  lemma RunStep(g: Grid, row: nat, col: nat, cells: seq<Cell>)
    requires cells + HeaderRun(g, row, col) == HeaderRun(g, row, 2)
    requires !HeaderStop(At(g, row, col))
    ensures (cells + [At(g, row, col)]) + HeaderRun(g, row, col + 1) == HeaderRun(g, row, 2)
  {
    var rest := HeaderRun(g, row, col + 1);
    assert HeaderRun(g, row, col) == [At(g, row, col)] + rest;
    ConcatAssoc(cells, [At(g, row, col)], rest);
  }

  /** One more header cell adds its key, at its column, to the map. */
  lemma KeysStep(cells: seq<Cell>, c: Cell)
    ensures KeyColumns(HeaderKeys(cells + [c]), 2) == Put(KeyColumns(HeaderKeys(cells), 2), HeaderKey(c), 2 + |cells|)
  {
    MapSnoc(cells, c, HeaderKey);
    KeyColumnsSnoc(HeaderKeys(cells), HeaderKey(c), 2);
  }

  /** `m[k] = col` when there is a key. */
  function Put(m: map<string, nat>, key: Option<string>, col: nat): map<string, nat> {
    match key
    case Some(k) => m[k := col]
    case None => m
  }

  lemma KeyColumnsSnoc(keys: seq<Option<string>>, key: Option<string>, start: nat)
    ensures KeyColumns(keys + [key], start) == Put(KeyColumns(keys, start), key, start + |keys|)
  {
    assert (keys + [key])[..|keys|] == keys;
  }

  /** Reads the header map of the Comparison block with the source's loop
      (lines 201-208), returning the column where it stopped. */
  method ReadHeaderMap(g: Grid, row: nat) returns (m: map<string, nat>, stop: nat)
    ensures m == HeaderMapAt(g, row)
    ensures stop == 2 + |HeaderRun(g, row, 2)|
  {
    m := map[];
    var col: nat := 2;
    ghost var cells: seq<Cell> := [];
    while !HeaderStop(At(g, row, col))
      invariant col == 2 + |cells|
      invariant cells + HeaderRun(g, row, col) == HeaderRun(g, row, 2)
      invariant m == KeyColumns(HeaderKeys(cells), 2)
      decreases MaxCol(g) + 1 - col
    {
      assert col <= MaxCol(g) by {
        if col > MaxCol(g) {
          AtBeyondWidth(g, row, col);
        }
      }
      var c := At(g, row, col);
      RunStep(g, row, col, cells);
      KeysStep(cells, c);
      match HeaderKey(c) {
        case Some(k) => m := m[k := col];
        case None =>
      }
      cells := cells + [c];
      col := col + 1;
    }
    assert HeaderRun(g, row, col) == [];
    assert cells + [] == cells;
    stop := col;
  }

  /** `basin in (None, "", "Grand Total")`: where reading rows stops. */
  predicate BasinStop(c: Cell) {
    c == Empty || c == Text("") || c == Text("Grand Total")
  }

  /** One field of a CK-vs-VM row: 0 when the Comparison block has no such
      column, else a reference to that column of the row, negated for cost
      fields (lines 222-230). */
  function FieldRef(m: map<string, nat>, r: nat, field: string): (a: Amount)
  {
    if field !in m then Number(0.0)
    else if field in CostFields then Calc(Neg(Far(PivotSheet, m[field], r)))
    else Calc(Far(PivotSheet, m[field], r))
  }

  /** The sign rule, as values: the adjustment reads the pivot cell, negated
      for cost fields, and 0 when the field has no column. */
  lemma FieldRefValue(m: map<string, nat>, r: nat, field: string, pivot: (nat, nat) -> real)
    ensures field !in m ==> AmountValue(FieldRef(m, r, field), pivot) == Some(0.0)
    ensures field in m && field in CostFields ==> AmountValue(FieldRef(m, r, field), pivot) == Some(-pivot(m[field], r))
    ensures field in m && field !in CostFields ==> AmountValue(FieldRef(m, r, field), pivot) == Some(pivot(m[field], r))
  {
  }

  /** The sixteen amounts of the CK-vs-VM row read from pivot row `r`. */
  function FieldRefs(m: map<string, nat>, r: nat): (a: seq<Amount>)
    ensures |a| == |SummaryFields|
    ensures forall j :: 0 <= j < |SummaryFields| ==> a[j] == FieldRef(m, r, SummaryFields[j])
  {
    seq(|SummaryFields|, j requires 0 <= j < |SummaryFields| => FieldRef(m, r, SummaryFields[j]))
  }

  function ComparisonRow(basin: Cell, period: Cell, m: map<string, nat>, r: nat): ManualRow {
    ManualRow(Text(""), basin, period, FieldRefs(m, r), "CK vs VM Adj")
  }

  /** The CK-vs-VM rows from row `r` down, up to the first stop. */
  function RowsFrom(g: Grid, m: map<string, nat>, period: Cell, r: nat): seq<ManualRow>
    decreases MaxRow(g) + 1 - r
  {
    if BasinStop(At(g, r, 1)) then []
    else
      assert r <= MaxRow(g) by {
        if r > MaxRow(g) {
          AtBeyondWidth(g, r, 1);
        }
      }
      [ComparisonRow(At(g, r, 1), period, m, r)] + RowsFrom(g, m, period, r + 1)
  }

  /** The rows read are those of rows `r`, `r + 1`, ... up to the first
      stop, each row's basin non-blank and not "Grand Total". */
  lemma {:induction false} RowsFromStop(g: Grid, m: map<string, nat>, period: Cell, r: nat)
    ensures BasinStop(At(g, r + |RowsFrom(g, m, period, r)|, 1))
    ensures forall q :: r <= q < r + |RowsFrom(g, m, period, r)| ==> !BasinStop(At(g, q, 1))
    ensures forall k :: 0 <= k < |RowsFrom(g, m, period, r)| ==>
      RowsFrom(g, m, period, r)[k] == ComparisonRow(At(g, r + k, 1), period, m, r + k)
    decreases MaxRow(g) + 1 - r
  {
    if !BasinStop(At(g, r, 1)) {
      assert r <= MaxRow(g) by {
        if r > MaxRow(g) {
          AtBeyondWidth(g, r, 1);
        }
      }
      RowsFromStop(g, m, period, r + 1);
      var rest := RowsFrom(g, m, period, r + 1);
      var rows := RowsFrom(g, m, period, r);
      assert 0 < |rows| && |rows| == |rest| + 1;
      assert rows == [ComparisonRow(At(g, r, 1), period, m, r)] + rest;
      assert r + |rows| == (r + 1) + |rest|;
      forall k | 0 <= k < |rows|
        ensures rows[k] == ComparisonRow(At(g, r + k, 1), period, m, r + k)
      {
        if k > 0 {
          var q := k - 1;
          assert rest[q] == ComparisonRow(At(g, (r + 1) + q, 1), period, m, (r + 1) + q);
          assert rows[k] == rest[q];
        }
      }
    }
  }

  /** `_extract_comparison_adjustments` (lines 193-233): no rows without
      the pivot sheet or its Comparison title; otherwise the header map of
      the row below the title and one row per basin below that. */
  function ComparisonAdjustments(pivot: Option<Grid>): seq<ManualRow> {
    match pivot
    case None => []
    case Some(g) =>
      match FindTitle(g)
      case None => []
      case Some(t) => RowsFrom(g, HeaderMapAt(g, t + 1), At(g, 2, 2), t + 2)
  }

  lemma RowsStep(g: Grid, m: map<string, nat>, period: Cell, start: nat, r: nat, rows: seq<ManualRow>)
    requires rows + RowsFrom(g, m, period, r) == RowsFrom(g, m, period, start)
    requires !BasinStop(At(g, r, 1))
    ensures (rows + [ComparisonRow(At(g, r, 1), period, m, r)]) + RowsFrom(g, m, period, r + 1)
            == RowsFrom(g, m, period, start)
  {
    var rest := RowsFrom(g, m, period, r + 1);
    assert RowsFrom(g, m, period, r) == [ComparisonRow(At(g, r, 1), period, m, r)] + rest;
    ConcatAssoc(rows, [ComparisonRow(At(g, r, 1), period, m, r)], rest);
  }

  /** The same, with the source's two `while` loops. */
  method ExtractComparisonAdjustments(pivot: Option<Grid>) returns (rows: seq<ManualRow>)
    ensures rows == ComparisonAdjustments(pivot)
  {
    match pivot {
      case None => rows := [];
      case Some(g) =>
        match FindTitle(g) {
          case None => rows := [];
          case Some(t) => rows := ExtractBelow(g, t);
        }
    }
  }

  /** The rows of the Comparison block whose title is in row `t`: the
      header map from row `t + 1`, then the rows from `t + 2` down. */
  method ExtractBelow(g: Grid, t: nat) returns (rows: seq<ManualRow>)
    ensures rows == RowsFrom(g, HeaderMapAt(g, t + 1), At(g, 2, 2), t + 2)
  {
    var m, _ := ReadHeaderMap(g, t + 1);
    rows := ReadRows(g, m, At(g, 2, 2), t + 2);
  }

  /** The row loop of lines 211-231: one CK-vs-VM row per pivot row from
      `start` down to the first stop. */
  method ReadRows(g: Grid, m: map<string, nat>, period: Cell, start: nat) returns (rows: seq<ManualRow>)
    ensures rows == RowsFrom(g, m, period, start)
  {
    rows := [];
    var r := start;
    while !BasinStop(At(g, r, 1))
      invariant rows + RowsFrom(g, m, period, r) == RowsFrom(g, m, period, start)
      decreases MaxRow(g) + 1 - r
    {
      assert r <= MaxRow(g) by {
        if r > MaxRow(g) {
          AtBeyondWidth(g, r, 1);
        }
      }
      RowsStep(g, m, period, start, r, rows);
      rows := rows + [ComparisonRow(At(g, r, 1), period, m, r)];
      r := r + 1;
    }
    assert RowsFrom(g, m, period, r) == [];
    assert rows + [] == rows;
  }

  /** What a CK-vs-VM row read from pivot row `r` on holds: the basin of
      its pivot row, which is neither blank nor "Grand Total", the period,
      the comment, and for each field the pivot cell of that row under the
      header column the map gives, negated for cost fields, or 0 when the
      field has no column. */
  lemma ComparisonRowsRead(g: Grid, m: map<string, nat>, period: Cell, r: nat, k: nat, j: nat,
                           pivot: (nat, nat) -> real)
    requires k < |RowsFrom(g, m, period, r)| && j < |SummaryFields|
    ensures var row := RowsFrom(g, m, period, r)[k];
            var f := SummaryFields[j];
            row.basin == At(g, r + k, 1) && !BasinStop(row.basin) &&
            row.period == period && row.comment == "CK vs VM Adj" &&
            |row.amounts| == |SummaryFields| &&
            AmountValue(row.amounts[j], pivot) ==
              if f !in m then Some(0.0)
              else if f in CostFields then Some(-pivot(m[f], r + k))
              else Some(pivot(m[f], r + k))
  {
    RowsFromStop(g, m, period, r);
    assert RowsFrom(g, m, period, r)[k] == ComparisonRow(At(g, r + k, 1), period, m, r + k);
    FieldRefValue(m, r + k, SummaryFields[j], pivot);
  }
}
