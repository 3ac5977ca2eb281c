/** The unallocated-cost distribution engine.  Unallocated P. VM cost is
    summed per basin, divided by the basin's activity (proppant tonnage, pad
    days in the report window, chemical cost), the cost of basins without
    activity is spread as one flat increment over the active basins, and
    every pad receives its driver times its basin's final ratio. */
module UnallocDistribution {
  import opened Wrappers
  import opened Strings
  import opened Ordering
  import opened Cells

  // ================================================================ sheets

  /** Every keyword occurs in the lower-cased sheet name. */
  predicate MatchesKeywords(name: string, keywords: seq<string>) {
    forall k :: 0 <= k < |keywords| ==> Contains(Lower(name), Lower(keywords[k]))
  }

  /** The sheet `find_sheet` picks, as a value: the first name matching
      the keywords, `None` when none does. */
  function FirstMatch(names: seq<string>, keywords: seq<string>): (r: Option<string>)
    ensures r.None? <==> forall i :: 0 <= i < |names| ==> !MatchesKeywords(names[i], keywords)
    ensures r.Some? ==> exists i :: (0 <= i < |names| && names[i] == r.value
      && MatchesKeywords(names[i], keywords)
      && forall k :: 0 <= k < i ==> !MatchesKeywords(names[k], keywords))
  {
    if names == [] then None
    else if MatchesKeywords(names[0], keywords) then Some(names[0])
    else
      var r := FirstMatch(names[1..], keywords);
      assert forall i :: 0 < i < |names| ==> names[i] == names[1..][i - 1];
      r
  }

  const NoSheet: string := "No sheet matching keywords"

  /** `find_sheet`: the first sheet, in workbook order, whose name contains
      every keyword case-blind; a KeyError when there is none. */
  method FindSheet(names: seq<string>, keywords: seq<string>) returns (r: Result<string>)
    ensures r.Err? <==> forall i :: 0 <= i < |names| ==> !MatchesKeywords(names[i], keywords)
    ensures r.Ok? ==> exists i :: (0 <= i < |names| && names[i] == r.value
      && MatchesKeywords(names[i], keywords)
      && forall k :: 0 <= k < i ==> !MatchesKeywords(names[k], keywords))
    ensures r.Ok? ==> FirstMatch(names, keywords) == Some(r.value)
    ensures r == Need(FirstMatch(names, keywords), NoSheet)
  {
    for i := 0 to |names|
      invariant forall k :: 0 <= k < i ==> !MatchesKeywords(names[k], keywords)
    {
      if MatchesKeywords(names[i], keywords) {
        return Ok(names[i]);
      }
    }
    return Err(NoSheet);
  }

  /** The header aliases of the P. VM sheets. */
  function Renamed(h: string): string {
    if h == "ENG BASIN R1" then "LBRT BASIN"
    else if h == "Chemical and Gel cost" then "Chem Cost"
    else if h == "Mat and Containment Costs" then "Mat Cost"
    else if h == "Other Pad Costs" then "Other Pad Cost"
    else if h == "Allocation VM" then "Alloc VM Cost"
    else h
  }

  /** A header after trimming and renaming. */
  function NormalizeHeader(h: string): (r: string)
    ensures Trimmed(r)
  {
    var t := Strip(h);
    var r := Renamed(t);
    AliasTargets(t, r);
    r
  }

  /** Every alias target starts and ends with a letter and is no alias
      itself. */
  lemma AliasTargets(t: string, r: string)
    requires r == Renamed(t)
    ensures r != t ==> Trimmed(r) && Renamed(r) == r
  {
    if t == "ENG BASIN R1" {
      assert r == "LBRT BASIN";
    } else if t == "Chemical and Gel cost" {
      assert r == "Chem Cost";
    } else if t == "Mat and Containment Costs" {
      assert r == "Mat Cost";
    } else if t == "Other Pad Costs" {
      assert r == "Other Pad Cost";
    } else if t == "Allocation VM" {
      assert r == "Alloc VM Cost";
    }
  }

  /** Normalising a header twice changes nothing more: no alias target is
      itself an alias, and trimmed text stays trimmed. */
  lemma NormalizeIdempotent(h: string)
    ensures NormalizeHeader(NormalizeHeader(h)) == NormalizeHeader(h)
  {
    var t := Strip(h);
    var n := Renamed(t);
    AliasTargets(t, n);
    StripTrimmed(n);
    if n == t {
      StripTrimmed(t);
    }
  }

  /** The first of `needed` that is not among `headers`: the column whose
      lookup raises KeyError. */
  function FirstMissing(headers: seq<string>, needed: seq<string>): (r: Option<string>)
    ensures r.None? <==> forall k :: 0 <= k < |needed| ==> needed[k] in headers
    ensures r.Some? ==> r.value in needed && r.value !in headers
  {
    if needed == [] then None
    else if needed[0] !in headers then Some(needed[0])
    else FirstMissing(headers, needed[1..])
  }

  /** Columns of the Unalloc sheet the engine reads, in the order it reads them. */
  const UnallocColumns: seq<string> :=
    ["Project Number", "LBRT BASIN", "Prop Cost", "Truck Cost",
     "Fuel Cost", "Mat Cost", "Other Pad Cost", "Alloc VM Cost"]

  /** Columns of the Current sheet the engine reads. */
  const CurrentColumns: seq<string> := ["LBRT BASIN", "Chem Cost"]

  // ================================================================ rows

  /** One row of a P. VM sheet: project number cell, basin (`None` for a
      blank) and the cost columns. */
  datatype VmLine = VmLine(project: Cell, basin: Option<string>,
                           prop: real, truck: real, chem: real, fuel: real,
                           mat: real, otherPad: real, allocVm: real)

  /** A P. VM sheet: its header row as read and its data rows. */
  datatype VmSheet = VmSheet(headers: seq<string>, lines: seq<VmLine>)

  /** One Main_Combo row of the Database sheet: the columns the engine
      reads (dates as day numbers, `None` for a blank date) and the row's
      cells as read, which are written back out unchanged. */
  datatype Pad = Pad(padNo: Cell, basin: Option<string>, start: Option<int>, end: Option<int>,
                     propTn: real, chemCost: real, cells: seq<Cell>)

  /** Line 95: a row is unallocated when its Project Number, as text, is
      not six digits.  `str()` of a float always carries '.', 'e', "nan" or
      "inf", so a float project number is never six digits. */
  predicate IsUnallocated(project: Cell) {
    match PyStr(project)
    case Some(t) => !IsSixDigits(t)
    case None => true
  }

  /** Lines 39-43: `pd.DataFrame` types the Project Number column as a
      whole.  Numbers mixed only with blanks become float64, and `str()` of
      a float64 ("123456.0", "nan") is never six digits; any other mix keeps
      each value as read. */
  predicate FloatColumn(lines: seq<VmLine>) {
    && (forall l :: l in lines ==> l.project.Empty? || l.project.Int? || l.project.Num?)
    && (exists l :: l in lines && (l.project.Empty? || l.project.Num?))
  }

  /** The rows kept by the mask: every row when `all`, else the rows whose
      project number is not six digits, in their order and multiplicity. */
  function Keep(lines: seq<VmLine>, all: bool): (r: seq<VmLine>)
    ensures forall l :: l in r <==> l in lines && (all || IsUnallocated(l.project))
  {
    if lines == [] then []
    else
      var init := Keep(lines[..|lines| - 1], all);
      var l := lines[|lines| - 1];
      assert forall x :: x in lines <==> x in lines[..|lines| - 1] || x == l;
      if all || IsUnallocated(l.project) then init + [l] else init
  }

  lemma {:induction false} KeepCount(lines: seq<VmLine>, all: bool, l: VmLine)
    ensures multiset(Keep(lines, all))[l] == if all || IsUnallocated(l.project) then multiset(lines)[l] else 0
  {
    if lines != [] {
      var n := |lines| - 1;
      KeepCount(lines[..n], all, l);
      assert lines == lines[..n] + [lines[n]];
    }
  }

  /** Lines 95-96 `df.loc[mask]` on the column as typed: in a float column
      every row is unallocated; otherwise exactly the rows whose project
      number is not six digits, in their order and multiplicity. */
  function Unallocated(lines: seq<VmLine>): (r: seq<VmLine>)
    ensures FloatColumn(lines) ==> r == lines
    ensures forall l :: l in r <==> l in lines && (FloatColumn(lines) || IsUnallocated(l.project))
  {
    KeepAll(lines);
    Keep(lines, FloatColumn(lines))
  }

  /** Each row is kept as often as it occurs, or not at all. */
  lemma UnallocatedCount(lines: seq<VmLine>, l: VmLine)
    ensures multiset(Unallocated(lines))[l] == if FloatColumn(lines) || IsUnallocated(l.project) then multiset(lines)[l] else 0
  {
    KeepCount(lines, FloatColumn(lines), l);
  }

  lemma {:induction false} KeepAll(lines: seq<VmLine>)
    ensures Keep(lines, true) == lines
  {
    if lines != [] {
      KeepAll(lines[..|lines| - 1]);
      assert lines == lines[..|lines| - 1] + [lines[|lines| - 1]];
    }
  }

  /** A column of six-digit integers, blank-free, is typed int64, and a
      row is dropped exactly when its project number is six digits. */
  lemma IntColumnKeepsSixDigits(lines: seq<VmLine>, l: VmLine)
    requires forall x :: x in lines ==> x.project.Int?
    requires l in lines && IsSixDigits(IntText(l.project.i))
    ensures l !in Unallocated(lines)
  {
  }

  /** A blank among integer project numbers makes every row unallocated,
      six-digit projects included. */
  lemma BlankFloatsColumn(lines: seq<VmLine>, k: nat)
    requires forall x :: x in lines ==> x.project.Int? || x.project.Empty?
    requires k < |lines| && lines[k].project.Empty?
    ensures Unallocated(lines) == lines
  {
    assert lines[k] in lines;
  }

  /** `dropna(subset=['Pad No'])`: the rows with a Pad No, in their order
      and multiplicity. */
  function MainRows(raw: seq<Pad>): (r: seq<Pad>)
    ensures forall p :: p in r <==> p in raw && p.padNo != Empty
  {
    if raw == [] then []
    else
      var init := MainRows(raw[..|raw| - 1]);
      var p := raw[|raw| - 1];
      assert forall x :: x in raw <==> x in raw[..|raw| - 1] || x == p;
      if p.padNo != Empty then init + [p] else init
  }

  /** Each row with a Pad No is kept as often as it occurs; the others are
      dropped. */
  lemma {:induction false} MainRowsCount(raw: seq<Pad>, p: Pad)
    ensures multiset(MainRows(raw))[p] == if p.padNo != Empty then multiset(raw)[p] else 0
  {
    if raw != [] {
      var n := |raw| - 1;
      MainRowsCount(raw[..n], p);
      assert raw == raw[..n] + [raw[n]];
    }
  }

  /** The filter works row by row: over two runs of rows it keeps the rows
      of each, the first run's before the second's. */
  lemma {:induction false} MainRowsAppend(a: seq<Pad>, b: seq<Pad>)
    ensures MainRows(a + b) == MainRows(a) + MainRows(b)
    decreases |b|
  {
    if b == [] {
      assert a + b == a;
    } else {
      var c, p := b[..|b| - 1], b[|b| - 1];
      assert b == c + [p];
      MainRowsAppend(a, c);
      MainRowsAppendSnoc(a, c, p);
      MainRowsSnoc(c, p);
    }
  }

  lemma MainRowsAppendSnoc(a: seq<Pad>, c: seq<Pad>, p: Pad)
    ensures MainRows(a + (c + [p])) == MainRows(a + c) + (if p.padNo != Empty then [p] else [])
  {
    assert a + (c + [p]) == (a + c) + [p];
    MainRowsSnoc(a + c, p);
  }

  lemma MainRowsSnoc(s: seq<Pad>, p: Pad)
    ensures MainRows(s + [p]) == MainRows(s) + (if p.padNo != Empty then [p] else [])
  {
    assert (s + [p])[..|s|] == s;
  }

  /** One row is kept exactly when it has a Pad No. */
  lemma MainRowsOne(p: Pad)
    ensures MainRows([p]) == if p.padNo != Empty then [p] else []
  {
    assert [p][..0] == [];
  }

  function Min(a: int, b: int): int { if a <= b then a else b }
  function Max(a: int, b: int): int { if a >= b then a else b }

  /** Lines 65-68: the end clipped to the window end minus the start clipped
      to the window start, floored at 0; NaN (`None`) when a date is missing.
      The result counts the days of `[start, end)` inside `[ms, me)`. */
  function PadDays(p: Pad, ms: int, me: int): (r: Option<int>)
    ensures r.Some? <==> p.start.Some? && p.end.Some?
    ensures r.Some? ==> r.value >= 0
  {
    match (p.start, p.end)
    case (Some(s), Some(e)) => Some(Max(0, Min(e, me) - Max(s, ms)))
    case _ => None
  }

  /** The pad days are the number of days the pad is active inside the
      window. */
  lemma PadDaysCountsDays(p: Pad, ms: int, me: int)
    requires p.start.Some? && p.end.Some?
    ensures PadDays(p, ms, me) == Some(|DaysIn(p.start.value, p.end.value, ms, me)|)
  {
    OverlapIsRange(p.start.value, p.end.value, ms, me);
    RangeSize(Max(p.start.value, ms), Min(p.end.value, me));
  }

  /** The integers `lo, lo + 1, ..., hi - 1`. */
  function Range(lo: int, hi: int): (r: seq<int>)
    ensures forall d :: d in r <==> lo <= d < hi
    decreases hi - lo
  {
    if lo >= hi then [] else Range(lo, hi - 1) + [hi - 1]
  }

  /** The days of `[start, end)` that fall in `[ms, me)`. */
  function DaysIn(start: int, end: int, ms: int, me: int): set<int> {
    set d | d in Range(start, end) && ms <= d < me
  }

  lemma OverlapIsRange(s: int, e: int, ms: int, me: int)
    ensures DaysIn(s, e, ms, me) == set d | d in Range(Max(s, ms), Min(e, me))
  {
  }

  lemma {:induction false} RangeSize(lo: int, hi: int)
    ensures |set d | d in Range(lo, hi)| == Max(0, hi - lo)
    decreases hi - lo
  {
    if lo < hi {
      var h := hi - 1;
      RangeSize(lo, h);
      assert (set d | d in Range(lo, hi)) == (set d | d in Range(lo, h)) + {h};
    } else {
      assert (set d | d in Range(lo, hi)) == {};
    }
  }

  /** A pad active over the whole window gets `me - ms` days, which, with
      `me` the last day of the month, is one day less than the month has. */
  lemma FullWindowPad(p: Pad, ms: int, me: int)
    requires p.start.Some? && p.end.Some?
    requires p.start.value <= ms <= me <= p.end.value
    ensures PadDays(p, ms, me) == Some(me - ms)
  {
  }

  // ================================================================ per-basin sums

  /** A value keyed by a basin that may be blank. */
  datatype Entry = Entry(key: Option<string>, amount: real)

  /** The sum of the amounts keyed by `b`. */
  function KeyTotal(es: seq<Entry>, b: string): real {
    if es == [] then 0.0
    else KeyTotal(es[..|es| - 1], b) + (if es[|es| - 1].key == Some(b) then es[|es| - 1].amount else 0.0)
  }

  predicate HasKey(es: seq<Entry>, b: string) {
    exists i :: 0 <= i < |es| && es[i].key == Some(b)
  }

  /** The basins present, in row order, repeats kept. */
  function KeyList(es: seq<Entry>): (r: seq<string>)
    ensures forall b :: b in r <==> HasKey(es, b)
  {
    if es == [] then []
    else
      var init := KeyList(es[..|es| - 1]);
      var e := es[|es| - 1];
      assert forall b :: HasKey(es, b) <==> HasKey(es[..|es| - 1], b) || e.key == Some(b) by {
        forall b ensures HasKey(es, b) <==> HasKey(es[..|es| - 1], b) || e.key == Some(b) {
          if HasKey(es, b) {
            var i :| 0 <= i < |es| && es[i].key == Some(b);
            if i < |es| - 1 {
              assert es[..|es| - 1][i] == es[i];
            }
          }
          if HasKey(es[..|es| - 1], b) {
            var i :| 0 <= i < |es| - 1 && es[..|es| - 1][i].key == Some(b);
            assert es[i] == es[..|es| - 1][i];
          }
        }
      }
      match e.key
      case Some(k) => init + [k]
      case None => init
  }

  /** `groupby(basin).sum()`: one total per basin present; rows with a blank
      basin are dropped. */
  function GroupSum(es: seq<Entry>): (m: map<string, real>)
    ensures forall b :: b in m <==> HasKey(es, b)
    ensures forall b :: b in m ==> m[b] == KeyTotal(es, b)
  {
    var keys := KeyList(es);
    map b | b in keys :: KeyTotal(es, b)
  }

  lemma {:induction false} KeyTotalAbsent(es: seq<Entry>, b: string)
    requires !HasKey(es, b)
    ensures KeyTotal(es, b) == 0.0
  {
    if es != [] {
      var init := es[..|es| - 1];
      KeyTotalAbsent(init, b);
    }
  }

  /** Which amount of a P. VM line is summed. */
  datatype Measure = PropCost | TruckCost | ChemCost | FuelCost | MatCost | OtherPadCost | AllocVmCost | DailyCost

  /** The amount a line contributes; `DailyCost` is `row_daily`, the row sum
      of the four daily-cost columns (line 108). */
  function MeasureOf(l: VmLine, m: Measure): real {
    match m
    case PropCost => l.prop
    case TruckCost => l.truck
    case ChemCost => l.chem
    case FuelCost => l.fuel
    case MatCost => l.mat
    case OtherPadCost => l.otherPad
    case AllocVmCost => l.allocVm
    case DailyCost => l.fuel + l.mat + l.otherPad + l.allocVm
  }

  function CostEntries(lines: seq<VmLine>, m: Measure): (r: seq<Entry>)
    ensures |r| == |lines|
    ensures forall i :: 0 <= i < |lines| ==> r[i] == Entry(lines[i].basin, MeasureOf(lines[i], m))
  {
    seq(|lines|, i requires 0 <= i < |lines| => Entry(lines[i].basin, MeasureOf(lines[i], m)))
  }

  /** The reference sum over the sheet itself: measure `m` of the
      unallocated rows of basin `b`. */
  function MaskedSum(lines: seq<VmLine>, all: bool, m: Measure, b: string): real {
    if lines == [] then 0.0
    else
      var l := lines[|lines| - 1];
      MaskedSum(lines[..|lines| - 1], all, m, b)
        + (if (all || IsUnallocated(l.project)) && l.basin == Some(b) then MeasureOf(l, m) else 0.0)
  }

  /** Lines 100-109: the numerator of a basin is the measure summed over
      exactly the unallocated rows of that basin. */
  lemma NumeratorIsMaskedSum(lines: seq<VmLine>, m: Measure, b: string)
    ensures KeyTotal(CostEntries(Unallocated(lines), m), b) == MaskedSum(lines, FloatColumn(lines), m, b)
  {
    KeptIsMaskedSum(lines, FloatColumn(lines), m, b);
  }

  lemma {:induction false} KeptIsMaskedSum(lines: seq<VmLine>, all: bool, m: Measure, b: string)
    ensures KeyTotal(CostEntries(Keep(lines, all), m), b) == MaskedSum(lines, all, m, b)
  {
    if lines != [] {
      var init := lines[..|lines| - 1];
      var l := lines[|lines| - 1];
      KeptIsMaskedSum(init, all, m, b);
      var u := Keep(init, all);
      if all || IsUnallocated(l.project) {
        assert Keep(lines, all) == u + [l];
        CostEntriesSnoc(u, l, m);
        KeyTotalSnoc(CostEntries(u, m), Entry(l.basin, MeasureOf(l, m)), b);
      } else {
        assert Keep(lines, all) == u;
      }
    }
  }

  lemma CostEntriesSnoc(lines: seq<VmLine>, l: VmLine, m: Measure)
    ensures CostEntries(lines + [l], m) == CostEntries(lines, m) + [Entry(l.basin, MeasureOf(l, m))]
  {
  }

  lemma KeyTotalSnoc(es: seq<Entry>, e: Entry, b: string)
    ensures KeyTotal(es + [e], b) == KeyTotal(es, b) + (if e.key == Some(b) then e.amount else 0.0)
  {
    assert (es + [e])[..|es|] == es;
  }

  /** Line 109: summing the four daily columns per row and then per basin
      gives the sum of the four per-basin column sums. */
  lemma {:induction false} DailyIsSumOfParts(lines: seq<VmLine>, all: bool, b: string)
    ensures MaskedSum(lines, all, DailyCost, b)
      == MaskedSum(lines, all, FuelCost, b) + MaskedSum(lines, all, MatCost, b)
         + MaskedSum(lines, all, OtherPadCost, b) + MaskedSum(lines, all, AllocVmCost, b)
  {
    if lines != [] {
      DailyIsSumOfParts(lines[..|lines| - 1], all, b);
    }
  }

  // ================================================================ alignment

  /** The value of basin `b` in a series, 0 for a basin the series lacks:
      what `reindex(..., fill_value=0)` reads. */
  function Amount(m: map<string, real>, b: string): real {
    if b in m then m[b] else 0.0
  }

  /** `reindex(index, fill_value=0)`. */
  function Reindex(m: map<string, real>, index: seq<string>): (r: map<string, real>)
    ensures forall b :: b in r <==> b in index
    ensures forall b :: b in r ==> r[b] == Amount(m, b)
  {
    map b | b in index :: Amount(m, b)
  }

  /** After alignment a basin's value is its total over the rows, 0 for a
      basin without rows. */
  lemma AlignedIsKeyTotal(es: seq<Entry>, b: string)
    ensures Amount(GroupSum(es), b) == KeyTotal(es, b)
  {
    if !HasKey(es, b) {
      KeyTotalAbsent(es, b);
    }
  }

  // ================================================================ ratios

  /** A ratio as pandas leaves it: a number or minus infinity. */
  datatype Extended = Finite(x: real) | NegInf

  /** `compute_ratio` for one basin as written (lines 158-160): the quotient,
      with +inf and NaN replaced by 0 but -inf left in place. */
  function RatioAsWritten(n: real, d: real): Extended {
    if d != 0.0 then Finite(n / d)
    else if n >= 0.0 then Finite(0.0)
    else NegInf
  }

  /** The guarded ratio: the quotient, and 0 when the denominator is 0. */
  function SafeRatio(n: real, d: real): (r: real)
    ensures d != 0.0 ==> r * d == n
    ensures d == 0.0 ==> r == 0.0
  {
    if d != 0.0 then n / d else 0.0
  }

  /** The code as written agrees with the guarded ratio except for a
      negative numerator over a zero denominator. */
  lemma AsWrittenAgreesWithSafe(n: real, d: real)
    ensures RatioAsWritten(n, d) == Finite(SafeRatio(n, d)) <==> n >= 0.0 || d != 0.0
  {
  }

  /** The input that shows the missed case: a -100 credit in a basin
      without activity. */
  lemma NegativeOrphanGivesNegInf()
    ensures RatioAsWritten(-100.0, 0.0) == NegInf
    ensures SafeRatio(-100.0, 0.0) == 0.0
  {
  }

  /** The base ratios over the aligned index. */
  function Ratios(index: seq<string>, num: map<string, real>, den: map<string, real>): (r: map<string, real>)
    ensures forall b :: b in r <==> b in index
    ensures forall b :: b in r ==> r[b] == SafeRatio(Amount(num, b), Amount(den, b))
  {
    map b | b in index :: SafeRatio(Amount(num, b), Amount(den, b))
  }

  // ================================================================ sprinkle

  /** The basin that never receives orphan cost. */
  const Excluded: string := "CA"

  /** A basin with activity, other than CA, takes a share of the pool. */
  predicate Receives(b: string, denom: map<string, real>) {
    Amount(denom, b) > 0.0 && b != Excluded
  }

  /** A basin with unallocated cost and no activity. */
  predicate IsOrphan(b: string, unalloc: map<string, real>, denom: map<string, real>) {
    Amount(denom, b) == 0.0 && Amount(unalloc, b) > 0.0
  }

  /** `unalloc[zero_mask].sum()`: the orphan cost. */
  function Pool(index: seq<string>, unalloc: map<string, real>, denom: map<string, real>): real {
    if index == [] then 0.0
    else
      var b := index[|index| - 1];
      Pool(index[..|index| - 1], unalloc, denom) + (if IsOrphan(b, unalloc, denom) then Amount(unalloc, b) else 0.0)
  }

  /** `valid.sum()`: the activity of the receiving basins. */
  function ValidSum(index: seq<string>, denom: map<string, real>): real {
    if index == [] then 0.0
    else
      var b := index[|index| - 1];
      ValidSum(index[..|index| - 1], denom) + (if Receives(b, denom) then Amount(denom, b) else 0.0)
  }

  /** `spr`: the flat increment, the pool over the receiving activity, 0
      when nothing receives. */
  function Increment(index: seq<string>, unalloc: map<string, real>, denom: map<string, real>): real {
    var v := ValidSum(index, denom);
    if v != 0.0 then Pool(index, unalloc, denom) / v else 0.0
  }

  /** Spread over the receiving activity the increment gives back the
      pool; it is 0, and the pool is dropped, when nothing receives. */
  lemma IncrementSpreadsPool(index: seq<string>, unalloc: map<string, real>, denom: map<string, real>)
    ensures ValidSum(index, denom) != 0.0 ==> Increment(index, unalloc, denom) * ValidSum(index, denom) == Pool(index, unalloc, denom)
    ensures ValidSum(index, denom) == 0.0 ==> Increment(index, unalloc, denom) == 0.0
  {
  }

  /** The ratios raised by `inc` on every receiving basin. */
  function Raised(index: seq<string>, ratio: map<string, real>, denom: map<string, real>, inc: real): (r: map<string, real>)
    ensures forall b :: b in r <==> b in index
  {
    map b | b in index :: Amount(ratio, b) + (if Receives(b, denom) then inc else 0.0)
  }

  /** The ratios after sprinkling: receivers get the increment on top of
      their base ratio, every other basin keeps its base ratio. */
  function Sprinkled(index: seq<string>, ratio: map<string, real>, unalloc: map<string, real>,
                     denom: map<string, real>): (r: map<string, real>)
    ensures forall b :: b in r <==> b in index
  {
    Raised(index, ratio, denom, Increment(index, unalloc, denom))
  }

  /** `sprinkle` (lines 168-176): the pool and the receiving activity are
      summed, the ratio is copied onto the index, and a loop adds the
      increment to every receiving basin. */
  method Sprinkle(index: seq<string>, ratio: map<string, real>, unalloc: map<string, real>,
                  denom: map<string, real>) returns (out: map<string, real>)
    requires Distinct(index)
    ensures forall b :: b in out <==> b in index
    ensures forall b :: b in index && Receives(b, denom) ==> out[b] == Amount(ratio, b) + Increment(index, unalloc, denom)
    ensures forall b :: b in index && !Receives(b, denom) ==> out[b] == Amount(ratio, b)
    ensures out == Sprinkled(index, ratio, unalloc, denom)
  {
    var pool := Pool(index, unalloc, denom);
    var valid := ValidSum(index, denom);
    var spr := if valid != 0.0 then pool / valid else 0.0;
    assert spr == Increment(index, unalloc, denom);
    out := map b | b in index :: Amount(ratio, b);
    for i := 0 to |index|
      invariant forall b :: b in out <==> b in index
      invariant forall k :: 0 <= k < |index| ==>
        out[index[k]] == Amount(ratio, index[k]) + (if k < i && Receives(index[k], denom) then spr else 0.0)
    {
      var b := index[i];
      out := out[b := out[b] + (if Amount(denom, b) > 0.0 && b != Excluded then spr else 0.0)];
    }
    SprinkledFromValues(index, ratio, unalloc, denom, out);
  }

  /** A map over the index holding the raised ratio of every basin is the
      sprinkled map. */
  lemma SprinkledFromValues(index: seq<string>, ratio: map<string, real>, unalloc: map<string, real>,
                            denom: map<string, real>, out: map<string, real>)
    requires forall b :: b in out <==> b in index
    requires forall k :: 0 <= k < |index| ==>
      out[index[k]] == Amount(ratio, index[k]) + (if Receives(index[k], denom) then Increment(index, unalloc, denom) else 0.0)
    ensures forall b :: b in index && Receives(b, denom) ==> out[b] == Amount(ratio, b) + Increment(index, unalloc, denom)
    ensures forall b :: b in index && !Receives(b, denom) ==> out[b] == Amount(ratio, b)
    ensures out == Sprinkled(index, ratio, unalloc, denom)
  {
    forall b | b in index
      ensures out[b] == Amount(ratio, b) + (if Receives(b, denom) then Increment(index, unalloc, denom) else 0.0)
    {
      var k :| 0 <= k < |index| && index[k] == b;
    }
  }

  // ================================================================ sprinkle properties

  /** The receiving activity is never negative, and it is positive exactly
      when some basin receives. */
  lemma {:induction false} ValidSumSign(index: seq<string>, denom: map<string, real>)
    ensures ValidSum(index, denom) >= 0.0
    ensures ValidSum(index, denom) > 0.0 <==> exists k :: 0 <= k < |index| && Receives(index[k], denom)
  {
    if index != [] {
      var init := index[..|index| - 1];
      ValidSumSign(init, denom);
      assert forall k :: 0 <= k < |init| ==> init[k] == index[k];
      if exists k :: 0 <= k < |index| && Receives(index[k], denom) {
        var k :| 0 <= k < |index| && Receives(index[k], denom);
        if k < |init| {
          assert Receives(init[k], denom);
        }
      }
    }
  }

  /** The orphan pool is never negative, and it is positive exactly when
      some basin is an orphan. */
  lemma {:induction false} PoolSign(index: seq<string>, unalloc: map<string, real>, denom: map<string, real>)
    ensures Pool(index, unalloc, denom) >= 0.0
    ensures Pool(index, unalloc, denom) > 0.0 <==> exists k :: 0 <= k < |index| && IsOrphan(index[k], unalloc, denom)
  {
    if index != [] {
      var init := index[..|index| - 1];
      PoolSign(init, unalloc, denom);
      assert forall k :: 0 <= k < |init| ==> init[k] == index[k];
      if exists k :: 0 <= k < |index| && IsOrphan(index[k], unalloc, denom) {
        var k :| 0 <= k < |index| && IsOrphan(index[k], unalloc, denom);
        if k < |init| {
          assert IsOrphan(init[k], unalloc, denom);
        }
      }
    }
  }

  /** Without orphans the final ratios are the base ratios. */
  lemma NoOrphansKeepsBase(index: seq<string>, ratio: map<string, real>, unalloc: map<string, real>,
                           denom: map<string, real>)
    requires forall k :: 0 <= k < |index| ==> !IsOrphan(index[k], unalloc, denom)
    ensures forall b :: b in index ==> Sprinkled(index, ratio, unalloc, denom)[b] == Amount(ratio, b)
  {
    PoolSign(index, unalloc, denom);
  }

  /** Without a receiving basin the pool is dropped: the final ratios are
      the base ratios. */
  lemma NoReceiversDropsPool(index: seq<string>, ratio: map<string, real>, unalloc: map<string, real>,
                             denom: map<string, real>)
    requires forall k :: 0 <= k < |index| ==> !Receives(index[k], denom)
    ensures forall b :: b in index ==> Sprinkled(index, ratio, unalloc, denom)[b] == Amount(ratio, b)
  {
    ValidSumSign(index, denom);
  }

  /** `Σ denom[b] * v[b]`: the cost a set of ratios hands out when every
      basin's drivers add up to its denominator. */
  function Weighted(index: seq<string>, denom: map<string, real>, v: map<string, real>): real {
    if index == [] then 0.0
    else
      var b := index[|index| - 1];
      Weighted(index[..|index| - 1], denom, v) + Amount(denom, b) * Amount(v, b)
  }

  /** The unallocated cost of the basins with a non-zero denominator. */
  function CoveredCost(index: seq<string>, unalloc: map<string, real>, denom: map<string, real>): real {
    if index == [] then 0.0
    else
      var b := index[|index| - 1];
      CoveredCost(index[..|index| - 1], unalloc, denom) + (if Amount(denom, b) != 0.0 then Amount(unalloc, b) else 0.0)
  }

  /** Weighting is additive in the ratios. */
  lemma {:induction false} WeightedAdd(index: seq<string>, denom: map<string, real>,
                                       u: map<string, real>, w: map<string, real>, v: map<string, real>)
    requires forall b :: b in index ==> Amount(v, b) == Amount(u, b) + Amount(w, b)
    ensures Weighted(index, denom, v) == Weighted(index, denom, u) + Weighted(index, denom, w)
  {
    if index != [] {
      var init := index[..|index| - 1];
      var b := index[|index| - 1];
      assert forall x :: x in init ==> x in index;
      WeightedAdd(init, denom, u, w, v);
      Distribute(Amount(denom, b), Amount(u, b), Amount(w, b));
    }
  }

  /** Weighted by the denominators, the base ratios give back the cost of
      the basins with activity. */
  lemma {:induction false} WeightedBase(index: seq<string>, unalloc: map<string, real>,
                                        denom: map<string, real>, v: map<string, real>)
    requires forall b :: b in index ==> Amount(v, b) == SafeRatio(Amount(unalloc, b), Amount(denom, b))
    ensures Weighted(index, denom, v) == CoveredCost(index, unalloc, denom)
  {
    if index != [] {
      var init := index[..|index| - 1];
      assert forall x :: x in init ==> x in index;
      WeightedBase(init, unalloc, denom, v);
    }
  }

  /** The receiving activity of each basin of `index`, in order. */
  function Activity(index: seq<string>, denom: map<string, real>): (xs: seq<real>)
    ensures |xs| == |index|
  {
    if index == [] then []
    else
      var b := index[|index| - 1];
      Activity(index[..|index| - 1], denom) + [if Receives(b, denom) then Amount(denom, b) else 0.0]
  }

  function Total(xs: seq<real>): real {
    if xs == [] then 0.0 else Total(xs[..|xs| - 1]) + xs[|xs| - 1]
  }

  function Scaled(xs: seq<real>, c: real): real {
    if xs == [] then 0.0 else Scaled(xs[..|xs| - 1], c) + c * xs[|xs| - 1]
  }

  lemma {:induction false} ScaledTotal(xs: seq<real>, c: real)
    ensures Scaled(xs, c) == c * Total(xs)
  {
    if xs != [] {
      ScaledTotal(xs[..|xs| - 1], c);
      Distribute(c, Total(xs[..|xs| - 1]), xs[|xs| - 1]);
    }
  }

  lemma {:induction false} ValidSumIsTotal(index: seq<string>, denom: map<string, real>)
    ensures ValidSum(index, denom) == Total(Activity(index, denom))
  {
    if index != [] {
      var xs := Activity(index, denom);
      ValidSumIsTotal(index[..|index| - 1], denom);
      assert xs[..|xs| - 1] == Activity(index[..|index| - 1], denom);
    }
  }

  lemma {:induction false} WeightedIsScaled(index: seq<string>, denom: map<string, real>,
                                            w: map<string, real>, inc: real)
    requires forall b :: b in index ==> Amount(w, b) == if Receives(b, denom) then inc else 0.0
    ensures Weighted(index, denom, w) == Scaled(Activity(index, denom), inc)
  {
    if index != [] {
      var init := index[..|index| - 1];
      var b := index[|index| - 1];
      var xs := Activity(index, denom);
      assert forall x :: x in init ==> x in index;
      WeightedIsScaled(init, denom, w, inc);
      assert xs[..|xs| - 1] == Activity(init, denom);
      IncrementStep(Amount(denom, b), Amount(w, b), inc, Receives(b, denom));
    }
  }

  /** Weighted by the denominators, the increment gives back the increment
      times the receiving activity. */
  lemma WeightedIncrement(index: seq<string>, denom: map<string, real>, w: map<string, real>, inc: real)
    requires forall b :: b in index ==> Amount(w, b) == if Receives(b, denom) then inc else 0.0
    ensures Weighted(index, denom, w) == inc * ValidSum(index, denom)
  {
    WeightedIsScaled(index, denom, w, inc);
    ScaledActivity(index, denom, inc);
  }

  lemma ScaledActivity(index: seq<string>, denom: map<string, real>, inc: real)
    ensures Scaled(Activity(index, denom), inc) == inc * ValidSum(index, denom)
  {
    ScaledTotal(Activity(index, denom), inc);
    ValidSumIsTotal(index, denom);
  }

  lemma IncrementStep(d: real, wv: real, inc: real, receives: bool)
    requires wv == if receives then inc else 0.0
    ensures d * wv == inc * (if receives then d else 0.0)
  {
  }

  lemma Distribute(a: real, x: real, y: real)
    ensures a * (x + y) == a * x + a * y
  {
  }

  /** The increment on the receiving basins, 0 elsewhere. */
  lemma IncrementMap(index: seq<string>, denom: map<string, real>, inc: real) returns (extra: map<string, real>)
    ensures forall b :: b in index ==> Amount(extra, b) == if Receives(b, denom) then inc else 0.0
  {
    extra := map b | b in index :: if Receives(b, denom) then inc else 0.0;
  }

  lemma WeightedParts(index: seq<string>, unalloc: map<string, real>, denom: map<string, real>,
                      base: map<string, real>, extra: map<string, real>, final: map<string, real>, inc: real)
    requires forall b :: b in index ==> Amount(final, b) == Amount(base, b) + Amount(extra, b)
    requires forall b :: b in index ==> Amount(base, b) == SafeRatio(Amount(unalloc, b), Amount(denom, b))
    requires forall b :: b in index ==> Amount(extra, b) == if Receives(b, denom) then inc else 0.0
    ensures Weighted(index, denom, final) == CoveredCost(index, unalloc, denom) + inc * ValidSum(index, denom)
  {
    WeightedAdd(index, denom, base, extra, final);
    WeightedBase(index, unalloc, denom, base);
    WeightedIncrement(index, denom, extra, inc);
  }

  /** Weighted by the denominators, the raised base ratios give the cost of
      the basins with activity plus the increment times the receiving
      activity. */
  lemma RaisedSplits(index: seq<string>, unalloc: map<string, real>, denom: map<string, real>, inc: real)
    ensures Weighted(index, denom, Raised(index, Ratios(index, unalloc, denom), denom, inc))
      == CoveredCost(index, unalloc, denom) + inc * ValidSum(index, denom)
  {
    var base := Ratios(index, unalloc, denom);
    var final := Raised(index, base, denom, inc);
    var extra := IncrementMap(index, denom, inc);
    assert forall b :: b in index ==> Amount(final, b) == Amount(base, b) + Amount(extra, b);
    WeightedParts(index, unalloc, denom, base, extra, final, inc);
  }

  lemma SprinkledSplits(index: seq<string>, unalloc: map<string, real>, denom: map<string, real>)
    ensures Weighted(index, denom, Sprinkled(index, Ratios(index, unalloc, denom), unalloc, denom))
      == CoveredCost(index, unalloc, denom) + Increment(index, unalloc, denom) * ValidSum(index, denom)
  {
    RaisedSplits(index, unalloc, denom, Increment(index, unalloc, denom));
  }

  /** Spread over the receiving activity, the increment gives back the pool,
      or nothing when no basin receives. */
  lemma PoolOrNothing(index: seq<string>, unalloc: map<string, real>, denom: map<string, real>, w: real)
    requires w == CoveredCost(index, unalloc, denom) + Increment(index, unalloc, denom) * ValidSum(index, denom)
    ensures w == CoveredCost(index, unalloc, denom)
                 + (if ValidSum(index, denom) != 0.0 then Pool(index, unalloc, denom) else 0.0)
  {
    IncrementSpreadsPool(index, unalloc, denom);
  }

  /** Conservation: weighted by the denominators, the final ratios hand out
      the cost of every basin with activity, plus the orphan pool when some
      basin receives it. */
  lemma Conservation(index: seq<string>, unalloc: map<string, real>, denom: map<string, real>)
    ensures Weighted(index, denom, Sprinkled(index, Ratios(index, unalloc, denom), unalloc, denom))
      == CoveredCost(index, unalloc, denom)
         + (if ValidSum(index, denom) != 0.0 then Pool(index, unalloc, denom) else 0.0)
  {
    SprinkledSplits(index, unalloc, denom);
    PoolOrNothing(index, unalloc, denom,
                  Weighted(index, denom, Sprinkled(index, Ratios(index, unalloc, denom), unalloc, denom)));
  }

  /** Lines 112, 119 and 180: the chemical numerator and denominator are the
      same series, so no basin is a chemical orphan, and a basin's final
      chemical ratio is 1 where its chemical cost is non-zero and 0
      elsewhere. */
  lemma ChemRatioIsOne(index: seq<string>, chem: map<string, real>)
    ensures forall k :: 0 <= k < |index| ==> !IsOrphan(index[k], chem, chem)
    ensures forall b :: b in index ==>
      Sprinkled(index, Ratios(index, chem, chem), chem, chem)[b] == if Amount(chem, b) != 0.0 then 1.0 else 0.0
  {
    PoolSign(index, chem, chem);
  }

  // ================================================================ basin union

  /** The per-basin entries of the numerators and denominators; the
      chemical cost of the Current sheet serves as both. */
  datatype Series = Series(sand: seq<Entry>, handle: seq<Entry>, daily: seq<Entry>, chem: seq<Entry>,
                           prop: seq<Entry>, days: seq<Entry>)

  /** The driver a pad's distribution is proportional to. */
  datatype Driver = Tonnage | PadChem | Days

  /** A pad's driver value; `None` is NaN (pad days of a pad with a blank date). */
  function DriverOf(p: Pad, d: Driver, ms: int, me: int): Option<real> {
    match d
    case Tonnage => Some(p.propTn)
    case PadChem => Some(p.chemCost)
    case Days => (match PadDays(p, ms, me) case Some(n) => Some(n as real) case None => None)
  }

  /** A NaN contributes nothing to a sum. */
  function OrZero(o: Option<real>): real {
    match o case Some(x) => x case None => 0.0
  }

  /** The pads' entries for one driver.  A basin whose pads all lack the
      value still appears in `groupby().sum()`, with 0. */
  function DriverEntries(pads: seq<Pad>, d: Driver, ms: int, me: int): (r: seq<Entry>)
    ensures |r| == |pads|
  {
    if pads == [] then []
    else
      var p := pads[|pads| - 1];
      DriverEntries(pads[..|pads| - 1], d, ms, me) + [Entry(p.basin, OrZero(DriverOf(p, d, ms, me)))]
  }

  /** Lines 100-119: the numerators come from the unallocated rows, the
      chemical series from every Current row, the tonnage and pad days from
      the pads. */
  function SeriesOf(unalloc: seq<VmLine>, current: seq<VmLine>, pads: seq<Pad>, ms: int, me: int): Series {
    var u := Unallocated(unalloc);
    Series(CostEntries(u, PropCost), CostEntries(u, TruckCost), CostEntries(u, DailyCost),
           CostEntries(current, ChemCost), DriverEntries(pads, Tonnage, ms, me), DriverEntries(pads, Days, ms, me))
  }

  /** Lines 124-132: `basin_union`, the sorted distinct basins of the seven
      series. */
  function BasinUnion(s: Series): (r: seq<string>)
    ensures StrictlySorted(r)
    ensures forall b :: b in r <==> (HasKey(s.sand, b) || HasKey(s.handle, b) || HasKey(s.daily, b)
                                     || HasKey(s.chem, b) || HasKey(s.prop, b) || HasKey(s.days, b))
  {
    SortedDistinct(KeyList(s.sand) + KeyList(s.handle) + KeyList(s.daily) + KeyList(s.chem)
                   + KeyList(s.prop) + KeyList(s.days) + KeyList(s.chem))
  }

  // ================================================================ final ratios

  /** Lines 134-181 for one numerator and denominator: align both on the
      index, take the safe ratio and sprinkle. */
  function Final(index: seq<string>, num: seq<Entry>, den: seq<Entry>): (r: map<string, real>)
    ensures forall b :: b in r <==> b in index
  {
    var n := Reindex(GroupSum(num), index);
    var d := Reindex(GroupSum(den), index);
    Sprinkled(index, Ratios(index, n, d), n, d)
  }

  /** The four final ratio series. */
  datatype Finals = Finals(sand: map<string, real>, handle: map<string, real>,
                           chem: map<string, real>, daily: map<string, real>)

  function FinalsOf(index: seq<string>, s: Series): Finals {
    Finals(Final(index, s.sand, s.prop), Final(index, s.handle, s.prop),
           Final(index, s.chem, s.chem), Final(index, s.daily, s.days))
  }

  // ================================================================ summary

  /** A row of the summary table; the ratios of the TOTAL row are blank. */
  datatype SummaryRow = SummaryRow(basin: string, sandUnalloc: real, propTotal: real, ratioSand: Option<real>,
                                   handleUnalloc: real, ratioHandle: Option<real>,
                                   chemUnalloc: real, ratioChem: Option<real>,
                                   dailyUnalloc: real, dayTotal: real, ratioDaily: Option<real>)

  /** The six summed columns of the summary. */
  datatype Column = SandUnalloc | PropTotal | HandleUnalloc | ChemUnalloc | DailyUnalloc | DayTotal

  function Field(r: SummaryRow, c: Column): real {
    match c
    case SandUnalloc => r.sandUnalloc
    case PropTotal => r.propTotal
    case HandleUnalloc => r.handleUnalloc
    case ChemUnalloc => r.chemUnalloc
    case DailyUnalloc => r.dailyUnalloc
    case DayTotal => r.dayTotal
  }

  /** The entries a column of the summary is grouped from. */
  function EntriesOf(s: Series, c: Column): seq<Entry> {
    match c
    case SandUnalloc => s.sand
    case PropTotal => s.prop
    case HandleUnalloc => s.handle
    case ChemUnalloc => s.chem
    case DailyUnalloc => s.daily
    case DayTotal => s.days
  }

  /** The summary row of basin `b`. */
  function BasinRow(b: string, s: Series, f: Finals): SummaryRow {
    SummaryRow(b, Amount(GroupSum(s.sand), b), Amount(GroupSum(s.prop), b), Some(Amount(f.sand, b)),
               Amount(GroupSum(s.handle), b), Some(Amount(f.handle, b)),
               Amount(GroupSum(s.chem), b), Some(Amount(f.chem, b)),
               Amount(GroupSum(s.daily), b), Amount(GroupSum(s.days), b), Some(Amount(f.daily, b)))
  }

  /** Each amount of a basin's row is the basin's total of that column. */
  lemma BasinRowField(b: string, s: Series, f: Finals, c: Column)
    ensures Field(BasinRow(b, s, f), c) == Amount(GroupSum(EntriesOf(s, c)), b)
  {
  }

  function BasinRows(index: seq<string>, s: Series, f: Finals): (rows: seq<SummaryRow>)
    ensures |rows| == |index|
    ensures forall k :: 0 <= k < |index| ==> rows[k] == BasinRow(index[k], s, f)
  {
    seq(|index|, k requires 0 <= k < |index| => BasinRow(index[k], s, f))
  }

  /** `df[...].sum()` of one column. */
  function ColumnTotal(rows: seq<SummaryRow>, c: Column): real {
    if rows == [] then 0.0 else ColumnTotal(rows[..|rows| - 1], c) + Field(rows[|rows| - 1], c)
  }

  /** Lines 219-230: the TOTAL row, the column sums with blank ratios. */
  function TotalRow(rows: seq<SummaryRow>): SummaryRow {
    SummaryRow("TOTAL", ColumnTotal(rows, SandUnalloc), ColumnTotal(rows, PropTotal), None,
               ColumnTotal(rows, HandleUnalloc), None, ColumnTotal(rows, ChemUnalloc), None,
               ColumnTotal(rows, DailyUnalloc), ColumnTotal(rows, DayTotal), None)
  }

  /** Lines 204-230: one row per basin of the index, then TOTAL. */
  function Summary(index: seq<string>, s: Series, f: Finals): (rows: seq<SummaryRow>)
    ensures |rows| == |index| + 1
    ensures rows[|index|].basin == "TOTAL"
    ensures forall k :: 0 <= k < |index| ==> rows[k].basin == index[k]
  {
    var body := BasinRows(index, s, f);
    body + [TotalRow(body)]
  }

  /** The sum of the amounts of the entries that have a basin. */
  function KeyedSum(es: seq<Entry>): real {
    if es == [] then 0.0
    else KeyedSum(es[..|es| - 1]) + (if es[|es| - 1].key.Some? then es[|es| - 1].amount else 0.0)
  }

  /** `Σ m[b]` over the index. */
  function SeriesSum(index: seq<string>, m: map<string, real>): real {
    if index == [] then 0.0 else SeriesSum(index[..|index| - 1], m) + Amount(m, index[|index| - 1])
  }

  /** A basin column of the summary sums to the series over the index. */
  lemma {:induction false} ColumnIsSeriesSum(index: seq<string>, s: Series, f: Finals, c: Column)
    ensures ColumnTotal(BasinRows(index, s, f), c) == SeriesSum(index, GroupSum(EntriesOf(s, c)))
  {
    if index != [] {
      var rows := BasinRows(index, s, f);
      ColumnIsSeriesSum(index[..|index| - 1], s, f, c);
      assert rows[..|rows| - 1] == BasinRows(index[..|index| - 1], s, f);
      BasinRowField(index[|index| - 1], s, f, c);
    }
  }

  /** The total, over the basins in the index, of `a` at `key`: `a` once
      when the key is one of the distinct basins, 0 otherwise. */
  function KeyShare(index: seq<string>, key: Option<string>, a: real): real {
    if index == [] then 0.0
    else KeyShare(index[..|index| - 1], key, a) + (if key == Some(index[|index| - 1]) then a else 0.0)
  }

  lemma {:induction false} KeyShareOnce(index: seq<string>, key: Option<string>, a: real)
    requires Distinct(index)
    ensures KeyShare(index, key, a) == if key.Some? && key.value in index then a else 0.0
  {
    if index != [] {
      var init := index[..|index| - 1];
      assert Distinct(init);
      KeyShareOnce(init, key, a);
      if key == Some(index[|index| - 1]) {
        assert key.value !in init;
      }
    }
  }

  /** The per-basin totals of `es` over the index. */
  function TotalsOver(index: seq<string>, es: seq<Entry>): real {
    if index == [] then 0.0 else TotalsOver(index[..|index| - 1], es) + KeyTotal(es, index[|index| - 1])
  }

  lemma {:induction false} TotalsOverAbsorb(index: seq<string>, es: seq<Entry>)
    requires es != []
    ensures TotalsOver(index, es)
      == TotalsOver(index, es[..|es| - 1]) + KeyShare(index, es[|es| - 1].key, es[|es| - 1].amount)
  {
    if index != [] {
      TotalsOverAbsorb(index[..|index| - 1], es);
    }
  }

  lemma {:induction false} TotalsOverAll(index: seq<string>, es: seq<Entry>)
    requires Distinct(index)
    requires forall i :: 0 <= i < |es| && es[i].key.Some? ==> es[i].key.value in index
    ensures TotalsOver(index, es) == KeyedSum(es)
  {
    if es == [] {
      TotalsOverNone(index);
    } else {
      var init := es[..|es| - 1];
      assert forall i :: 0 <= i < |init| ==> init[i] == es[i];
      TotalsOverAll(index, init);
      TotalsOverAbsorb(index, es);
      KeyShareOnce(index, es[|es| - 1].key, es[|es| - 1].amount);
    }
  }

  lemma {:induction false} TotalsOverNone(index: seq<string>)
    ensures TotalsOver(index, []) == 0.0
  {
    if index != [] {
      TotalsOverNone(index[..|index| - 1]);
    }
  }

  lemma {:induction false} SeriesSumIsTotals(index: seq<string>, es: seq<Entry>)
    ensures SeriesSum(index, GroupSum(es)) == TotalsOver(index, es)
  {
    if index != [] {
      SeriesSumIsTotals(index[..|index| - 1], es);
      AlignedIsKeyTotal(es, index[|index| - 1]);
    }
  }

  /** Lines 219-230: each amount of the TOTAL row is the sum of the column
      over the basin rows, and that is the sum over every source row that
      has a basin: grouping by basin loses only the rows with a blank basin. */
  lemma TotalRowIsGrandTotal(s: Series, f: Finals, c: Column)
    ensures var rows := Summary(BasinUnion(s), s, f);
      && Field(rows[|rows| - 1], c) == ColumnTotal(rows[..|rows| - 1], c)
      && Field(rows[|rows| - 1], c) == KeyedSum(EntriesOf(s, c))
  {
    var index := BasinUnion(s);
    var rows := Summary(index, s, f);
    assert rows[..|rows| - 1] == BasinRows(index, s, f);
    ColumnIsSeriesSum(index, s, f, c);
    SeriesSumIsTotals(index, EntriesOf(s, c));
    SortedIsDistinct(index);
    var es := EntriesOf(s, c);
    forall i | 0 <= i < |es| && es[i].key.Some? ensures es[i].key.value in index {
      assert HasKey(es, es[i].key.value);
    }
    TotalsOverAll(index, es);
  }

  // ================================================================ pad shares

  /** What a driver amount receives at a ratio: `driver * ratio`. */
  function Allot(driver: real, ratio: real): real {
    driver * ratio
  }

  /** `driver * basin.map(final)`: NaN (`None`) when the driver is NaN or
      the pad's basin is blank. */
  function Share(driver: Option<real>, basin: Option<string>, final: map<string, real>): (r: Option<real>)
    ensures r.Some? <==> driver.Some? && basin.Some? && basin.value in final
  {
    if driver.Some? && basin.Some? && basin.value in final then Some(Allot(driver.value, final[basin.value])) else None
  }

  /** A pad with its pad days and its four `Unalloc_*` columns. */
  datatype PadOut = PadOut(pad: Pad, padDays: Option<int>,
                           sand: Option<real>, handle: Option<real>, chem: Option<real>, daily: Option<real>)

  /** Lines 233-237. */
  function PadOutOf(p: Pad, ms: int, me: int, f: Finals): PadOut {
    PadOut(p, PadDays(p, ms, me),
           Share(DriverOf(p, Tonnage, ms, me), p.basin, f.sand),
           Share(DriverOf(p, Tonnage, ms, me), p.basin, f.handle),
           Share(DriverOf(p, PadChem, ms, me), p.basin, f.chem),
           Share(DriverOf(p, Days, ms, me), p.basin, f.daily))
  }

  /** What the pads of basin `b` receive together for one driver. */
  function BasinShare(pads: seq<Pad>, d: Driver, ms: int, me: int, final: map<string, real>, b: string): real {
    if pads == [] then 0.0
    else
      var p := pads[|pads| - 1];
      BasinShare(pads[..|pads| - 1], d, ms, me, final, b)
        + (if p.basin == Some(b) then OrZero(Share(DriverOf(p, d, ms, me), p.basin, final)) else 0.0)
  }

  /** The amounts of basin `b` of each entry, 0 for the other entries. */
  function KeyAmounts(es: seq<Entry>, b: string): (xs: seq<real>)
    ensures |xs| == |es|
  {
    if es == [] then []
    else KeyAmounts(es[..|es| - 1], b) + [if es[|es| - 1].key == Some(b) then es[|es| - 1].amount else 0.0]
  }

  lemma {:induction false} KeyTotalIsTotal(es: seq<Entry>, b: string)
    ensures KeyTotal(es, b) == Total(KeyAmounts(es, b))
  {
    if es != [] {
      var xs := KeyAmounts(es, b);
      KeyTotalIsTotal(es[..|es| - 1], b);
      assert xs[..|xs| - 1] == KeyAmounts(es[..|es| - 1], b);
    }
  }

  /** `c` times the amounts of basin `b`. */
  function EntryShare(es: seq<Entry>, c: real, b: string): real {
    if es == [] then 0.0
    else EntryShare(es[..|es| - 1], c, b) + (if es[|es| - 1].key == Some(b) then Allot(es[|es| - 1].amount, c) else 0.0)
  }

  lemma {:induction false} BasinShareIsEntryShare(pads: seq<Pad>, d: Driver, ms: int, me: int,
                                                  final: map<string, real>, b: string)
    requires b in final
    ensures BasinShare(pads, d, ms, me, final, b) == EntryShare(DriverEntries(pads, d, ms, me), final[b], b)
  {
    if pads != [] {
      var init := pads[..|pads| - 1];
      var es := DriverEntries(pads, d, ms, me);
      BasinShareIsEntryShare(init, d, ms, me, final, b);
      assert es[..|es| - 1] == DriverEntries(init, d, ms, me);
      assert es[|es| - 1] == Entry(pads[|pads| - 1].basin, OrZero(DriverOf(pads[|pads| - 1], d, ms, me)));
    }
  }

  lemma {:induction false} EntryShareIsScaled(es: seq<Entry>, c: real, b: string)
    ensures EntryShare(es, c, b) == Scaled(KeyAmounts(es, b), c)
  {
    if es != [] {
      var xs := KeyAmounts(es, b);
      var x := es[|es| - 1].amount;
      EntryShareIsScaled(es[..|es| - 1], c, b);
      assert xs[..|xs| - 1] == KeyAmounts(es[..|es| - 1], b);
      Commute(x, c);
    }
  }

  lemma Commute(x: real, y: real)
    ensures x * y == y * x
  {
  }

  lemma EntryShareIsScaledTotal(es: seq<Entry>, c: real, b: string)
    ensures EntryShare(es, c, b) == c * KeyTotal(es, b)
  {
    EntryShareIsScaled(es, c, b);
    KeyTotalIsTotal(es, b);
    ScaledTotal(KeyAmounts(es, b), c);
  }

  /** Together, the pads of a basin receive its final ratio times their
      total driver. */
  lemma {:induction false} BasinShareIsRatioTimesDriver(pads: seq<Pad>, d: Driver, ms: int, me: int,
                                     final: map<string, real>, b: string)
    requires b in final
    ensures BasinShare(pads, d, ms, me, final, b) == Allot(KeyTotal(DriverEntries(pads, d, ms, me), b), final[b])
  {
    BasinShareIsEntryShare(pads, d, ms, me, final, b);
    EntryShareIsAllot(DriverEntries(pads, d, ms, me), final[b], b);
  }

  lemma EntryShareIsAllot(es: seq<Entry>, c: real, b: string)
    ensures EntryShare(es, c, b) == Allot(KeyTotal(es, b), c)
  {
    EntryShareIsScaledTotal(es, c, b);
    Commute(c, KeyTotal(es, b));
  }

  /** A receiving basin's raised ratio times its denominator is its own
      cost plus the increment times its activity. */
  lemma {:induction false} ReceiverTimesDenominator(index: seq<string>, n: map<string, real>, d: map<string, real>,
                                                    inc: real, b: string)
    requires b in index && Receives(b, d)
    ensures Allot(Amount(d, b), Raised(index, Ratios(index, n, d), d, inc)[b]) == Amount(n, b) + inc * Amount(d, b)
  {
    RaisedAt(index, n, d, inc, b);
    SpreadReceiver(n, d, inc, b);
  }

  /** Any other basin's raised ratio times its denominator is its own cost
      when it has activity, 0 when it has none. */
  lemma {:induction false} OtherTimesDenominator(index: seq<string>, n: map<string, real>, d: map<string, real>,
                                                 inc: real, b: string)
    requires b in index && !Receives(b, d)
    ensures Allot(Amount(d, b), Raised(index, Ratios(index, n, d), d, inc)[b]) == if Amount(d, b) != 0.0 then Amount(n, b) else 0.0
  {
    RaisedAt(index, n, d, inc, b);
    SpreadOther(n, d, b);
  }

  lemma RaisedAt(index: seq<string>, n: map<string, real>, d: map<string, real>, inc: real, b: string)
    requires b in index
    ensures Receives(b, d) ==> Raised(index, Ratios(index, n, d), d, inc)[b] == SafeRatio(Amount(n, b), Amount(d, b)) + inc
    ensures !Receives(b, d) ==> Raised(index, Ratios(index, n, d), d, inc)[b] == SafeRatio(Amount(n, b), Amount(d, b))
  {
    assert Amount(Ratios(index, n, d), b) == SafeRatio(Amount(n, b), Amount(d, b));
  }

  /** The base ratio of a basin with activity, plus `inc`, times that
      activity is its cost plus `inc` times the activity. */
  lemma SpreadReceiver(n: map<string, real>, d: map<string, real>, inc: real, b: string)
    requires Amount(d, b) != 0.0
    ensures Allot(Amount(d, b), SafeRatio(Amount(n, b), Amount(d, b)) + inc) == Amount(n, b) + inc * Amount(d, b)
  {
  }

  /** The base ratio times the activity is the cost, or 0 without activity. */
  lemma SpreadOther(n: map<string, real>, d: map<string, real>, b: string)
    ensures Allot(Amount(d, b), SafeRatio(Amount(n, b), Amount(d, b))) == if Amount(d, b) != 0.0 then Amount(n, b) else 0.0
  {
  }

  /** The final ratio of basin `b` is its raised ratio. */
  lemma FinalAt(index: seq<string>, num: seq<Entry>, den: seq<Entry>, n: map<string, real>, d: map<string, real>,
                b: string)
    requires b in index
    requires n == Reindex(GroupSum(num), index) && d == Reindex(GroupSum(den), index)
    ensures b in Final(index, num, den)
    ensures Final(index, num, den)[b] == Raised(index, Ratios(index, n, d), d, Increment(index, n, d))[b]
  {
  }

  /** Lines 233-237: the pads of a receiving basin `b` together get its
      unallocated cost plus the increment times their driver.  `den` are
      the pads' driver entries, `n` and `d` the aligned cost and driver
      sums, `inc` the increment. */
  lemma ReceiverReachesPads(index: seq<string>, num: seq<Entry>, pads: seq<Pad>, dr: Driver, ms: int, me: int,
                            b: string, den: seq<Entry>, n: map<string, real>, d: map<string, real>, inc: real)
    requires b in index
    requires den == DriverEntries(pads, dr, ms, me)
    requires n == Reindex(GroupSum(num), index) && d == Reindex(GroupSum(den), index)
    requires inc == Increment(index, n, d)
    requires Receives(b, d)
    ensures BasinShare(pads, dr, ms, me, Final(index, num, den), b) == Amount(n, b) + inc * Amount(d, b)
  {
    FinalAt(index, num, den, n, d, b);
    AlignedIsKeyTotal(den, b);
    assert Amount(d, b) == KeyTotal(den, b);
    ReceiverTimesDenominator(index, n, d, inc, b);
    BasinShareIsRatioTimesDriver(pads, dr, ms, me, Final(index, num, den), b);
  }

  /** Lines 233-237: the pads of any other basin `b` together get its
      unallocated cost in full when it has activity, and nothing when it
      has none. */
  lemma OtherReachesPads(index: seq<string>, num: seq<Entry>, pads: seq<Pad>, dr: Driver, ms: int, me: int,
                         b: string, den: seq<Entry>, n: map<string, real>, d: map<string, real>, inc: real)
    requires b in index
    requires den == DriverEntries(pads, dr, ms, me)
    requires n == Reindex(GroupSum(num), index) && d == Reindex(GroupSum(den), index)
    requires inc == Increment(index, n, d)
    requires !Receives(b, d)
    ensures BasinShare(pads, dr, ms, me, Final(index, num, den), b) == if Amount(d, b) != 0.0 then Amount(n, b) else 0.0
  {
    FinalAt(index, num, den, n, d, b);
    AlignedIsKeyTotal(den, b);
    assert Amount(d, b) == KeyTotal(den, b);
    OtherTimesDenominator(index, n, d, inc, b);
    BasinShareIsRatioTimesDriver(pads, dr, ms, me, Final(index, num, den), b);
  }

  /** Lines 112, 119, 180 and 236: a pad's `Unalloc_Chem` is its own
      Chem Cost when its basin's chemical cost on the Current sheet is
      non-zero, and 0 otherwise. */
  lemma ChemShareCopiesChemCost(unalloc: seq<VmLine>, current: seq<VmLine>, pads: seq<Pad>,
                                ms: int, me: int, p: Pad)
    requires var s := SeriesOf(unalloc, current, pads, ms, me); p.basin.Some? && p.basin.value in BasinUnion(s)
    ensures var s := SeriesOf(unalloc, current, pads, ms, me);
      var c := Reindex(GroupSum(s.chem), BasinUnion(s));
      PadOutOf(p, ms, me, FinalsOf(BasinUnion(s), s)).chem
        == Some(p.chemCost * (if Amount(c, p.basin.value) != 0.0 then 1.0 else 0.0))
  {
    var s := SeriesOf(unalloc, current, pads, ms, me);
    var index := BasinUnion(s);
    var c := Reindex(GroupSum(s.chem), index);
    ChemRatioIsOne(index, c);
  }
}
