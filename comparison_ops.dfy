/** The "Comparison" sheet: the PnL ledger's month column and the cleaned
    CAD data joined on account number, their difference, the account group
    of each account, and the Revenue and Variable Cost rows that differ. */
module ComparisonOps {
  import opened Wrappers
  import opened Strings
  import opened Cells
  import opened Seqs

  // ---------------------------------------------------------------- value cleaning

  /** The regular-expression replacements of lines 44 and 60 on a text:
      `dropped` and ')' are removed and '(' becomes '-'. */
  function CleanText(s: string, dropped: char): (r: string)
    ensures forall k :: 0 <= k < |r| ==> r[k] != '(' && r[k] != ')' && (r[k] == dropped ==> dropped == '-')
  {
    if |s| == 0 then []
    else
      var head, tail := CleanChar(s[0], dropped), CleanText(s[1..], dropped);
      assert forall k :: 0 <= k < |head + tail| ==> (head + tail)[k] == if k < |head| then head[k] else tail[k - |head|];
      head + tail
  }

  function CleanChar(c: char, dropped: char): (r: string)
    ensures forall k :: 0 <= k < |r| ==> r[k] != '(' && r[k] != ')' && (r[k] == dropped ==> dropped == '-')
  {
    if c == dropped || c == ')' then [] else if c == '(' then "-" else [c]
  }

  /** A text with none of the three characters is left as it is. */
  lemma {:induction false} CleanTextUnchanged(s: string, dropped: char)
    requires forall k :: 0 <= k < |s| ==> s[k] != dropped && s[k] != '(' && s[k] != ')'
    ensures CleanText(s, dropped) == s
  {
    if s != [] {
      CleanTextUnchanged(s[1..], dropped);
    }
  }

  lemma CleanOne(c: char, dropped: char)
    ensures CleanText([c], dropped) == CleanChar(c, dropped)
  {
    assert [c][1..] == [];
  }

  lemma {:induction false} CleanTextAppend(a: string, b: string, dropped: char)
    ensures CleanText(a + b, dropped) == CleanText(a, dropped) + CleanText(b, dropped)
    decreases |a|
  {
    var ab := a + b;
    if a == [] {
      assert ab == b;
    } else {
      assert ab != [] && ab[0] == a[0] && ab[1..] == a[1..] + b;
      CleanTextAppend(a[1..], b, dropped);
      ConcatAssoc(CleanChar(a[0], dropped), CleanText(a[1..], dropped), CleanText(b, dropped));
    }
  }

  /** The accounting notation "(x)" reads as "-x". */
  lemma CleanParenthesised(x: string, dropped: char)
    requires dropped != '(' && dropped != ')'
    requires forall k :: 0 <= k < |x| ==> x[k] != dropped && x[k] != '(' && x[k] != ')'
    ensures CleanText("(" + x + ")", dropped) == "-" + x
  {
    var open, close := "(", ")";
    CleanTextAppend(open, x + close, dropped);
    CleanTextAppend(x, close, dropped);
    CleanTextUnchanged(x, dropped);
    CleanOne('(', dropped);
    CleanOne(')', dropped);
    ConcatAssoc(open, x, close);
  }

  /** numpy's round to the nearest integer, halves to the even neighbour. */
  function RoundHalfEven(x: real): (r: int)
    ensures x - 0.5 <= r as real <= x + 0.5
    ensures r as real - x == 0.5 || x - r as real == 0.5 ==> r % 2 == 0
  {
    var f := x.Floor;
    var d := x - f as real;
    if d < 0.5 then f
    else if d > 0.5 then f + 1
    else if f % 2 == 0 then f else f + 1
  }

  /** Lines 42-48 for one cell: text cleaned of '$' and parentheses, then
      `float`, rounded and made an integer.  `None` is the exception that
      ends the run: text that is no number, and blanks and dates, whose
      NaN or type `astype(int)` and `astype(float)` refuse. */
  function PnlValue(c: Cell): (r: Option<int>)
    ensures c.Int? ==> r == Some(c.i)
    ensures c.Empty? || c.Stamp? ==> r.None?
  {
    match c
    case Text(s) =>
      (match PyFloat(CleanText(s, '$')) case Some(x) => Some(RoundHalfEven(x)) case None => None)
    case Int(i) => Some(RoundHalfEven(i as real))
    case Num(x) => Some(RoundHalfEven(x))
    case _ => None
  }

  /** A CAD value after lines 58-62: text cleaned of ',' and parentheses,
      then `float`, not rounded.  A blank is NaN, written `NaN`. */
  datatype Amount = NaN | Real(x: real)

  /** `None` is the exception of a text that is no number or of a date. */
  function CadValue(c: Cell): (r: Option<Amount>)
    ensures c.Empty? ==> r == Some(NaN)
    ensures c.Int? ==> r == Some(Real(c.i as real))
    ensures c.Num? ==> r == Some(Real(c.x))
  {
    match c
    case Empty => Some(NaN)
    case Text(s) => (match PyFloat(CleanText(s, ',')) case Some(x) => Some(Real(x)) case None => None)
    case Int(i) => Some(Real(i as real))
    case Num(x) => Some(Real(x))
    case Stamp(_, _, _) => None
  }

  /** "($1234)" in the ledger is the integer -1234. */
  lemma {:induction false} PnlNegativeDollars(t: string)
    requires |t| > 0 && AllDigits(t)
    ensures PnlValue(Text("($" + t + ")")) == Some(-(DigitsValue(t) as int))
  {
    DollarsCleaned(t);
    NegatedDigitsReads(t, true);
    RoundWhole(-(DigitsValue(t) as int));
    PnlText("($" + t + ")", "-" + t, -(DigitsValue(t) as real));
  }

  /** A ledger text reads as its cleaned text's value, rounded. */
  lemma {:induction false} PnlText(s: string, cleaned: string, x: real)
    requires CleanText(s, '$') == cleaned && PyFloat(cleaned) == Some(x)
    ensures PnlValue(Text(s)) == Some(RoundHalfEven(x))
  {
  }

  /** A whole number rounds to itself. */
  lemma RoundWhole(i: int)
    ensures RoundHalfEven(i as real) == i
  {
    assert (i as real).Floor == i;
  }

  lemma DollarsCleaned(t: string)
    requires AllDigits(t)
    ensures CleanText("($" + t + ")", '$') == "-" + t
  {
    var pre, close := "($", ")";
    assert pre != [] && pre[0] == '(' && pre[1..] == "$";
    CleanOne('$', '$');
    assert CleanText(pre, '$') == "-";
    ConcatAssoc(pre, t, close);
    CleanTextAppend(pre, t + close, '$');
    CleanTextAppend(t, close, '$');
    CleanTextUnchanged(t, '$');
    CleanOne(')', '$');
  }

  /** "(1234)" in the CAD data is -1234.0. */
  lemma {:induction false} CadNegative(t: string)
    requires |t| > 0 && AllDigits(t)
    ensures CadValue(Text("(" + t + ")")) == Some(Real(-(DigitsValue(t) as real)))
  {
    assert forall k :: 0 <= k < |t| ==> IsDigit(t[k]);
    CleanParenthesised(t, ',');
    NegatedDigitsReads(t, true);
    CadText("(" + t + ")", "-" + t, -(DigitsValue(t) as real));
  }

  /** A CAD text reads as its cleaned text's value. */
  lemma {:induction false} CadText(s: string, cleaned: string, x: real)
    requires CleanText(s, ',') == cleaned && PyFloat(cleaned) == Some(x)
    ensures CadValue(Text(s)) == Some(Real(x))
  {
  }

  // ---------------------------------------------------------------- frames

  /** Value `k` (0-based) of a row of `pd.DataFrame(ws.values)`; rows read
      shorter than the frame are padded with `None`. */
  function Col(row: seq<Cell>, k: nat): Cell {
    if k < |row| then row[k] else Empty
  }

  /** A join key: `str(v).strip()`.  The text of a float is not modelled,
      so float keys are compared as numbers. */
  datatype Key = Str(s: string) | FloatKey(x: real)

  function KeyOf(c: Cell): Key {
    match PyStr(c)
    case Some(t) => Str(Strip(t))
    case None => FloatKey(c.x)
  }

  function Keys(rows: seq<seq<Cell>>, k: nat): (ks: seq<Key>)
    ensures |ks| == |rows| && forall i :: 0 <= i < |rows| ==> ks[i] == KeyOf(Col(rows[i], k))
  {
    seq(|rows|, i requires 0 <= i < |rows| => KeyOf(Col(rows[i], k)))
  }

  /** Column `k` of every row converted by `conv` (`PnlValue` for the
      ledger, `CadValue` for the CAD data), or `None` if any value fails. */
  function Convert<T>(rows: seq<seq<Cell>>, k: nat, conv: Cell -> Option<T>): (r: Option<seq<T>>)
    ensures r.Some? <==> AllConvert(rows, k, conv)
    ensures r.Some? ==> ValuesAt(rows, k, conv, r.value)
  {
    if rows == [] then Some([])
    else
      var n := |rows| - 1;
      match Convert(rows[..n], k, conv)
      case None =>
        assert forall i :: 0 <= i < n ==> rows[..n][i] == rows[i];
        None
      case Some(front) =>
        match conv(Col(rows[n], k))
        case None => None
        case Some(v) =>
          assert forall i :: 0 <= i < n ==> rows[..n][i] == rows[i];
          Some(front + [v])
  }

  /** Every value of column `k` converts. */
  ghost predicate AllConvert<T>(rows: seq<seq<Cell>>, k: nat, conv: Cell -> Option<T>) {
    forall i :: 0 <= i < |rows| ==> conv(Col(rows[i], k)).Some?
  }

  /** `vs` is column `k` converted. */
  ghost predicate ValuesAt<T>(rows: seq<seq<Cell>>, k: nat, conv: Cell -> Option<T>, vs: seq<T>) {
    |vs| == |rows| && forall i :: 0 <= i < |vs| ==> conv(Col(rows[i], k)) == Some(vs[i])
  }

  // ---------------------------------------------------------------- joins

  /** Lines 87-91, on row positions: every left row paired with each right
      row of the same key, left rows in order and, within one, right rows in
      order. */
  function Pairs(lk: seq<Key>, rk: seq<Key>): (ps: seq<(nat, nat)>)
    ensures forall k :: 0 <= k < |ps| ==> ps[k].0 < |lk| && ps[k].1 < |rk| && lk[ps[k].0] == rk[ps[k].1]
  {
    if lk == [] then []
    else
      var n := |lk| - 1;
      var front := Pairs(lk[..n], rk);
      assert forall k :: 0 <= k < |front| ==> lk[..n][front[k].0] == lk[front[k].0];
      front + Matches(n, lk[n], rk, 0)
  }

  /** The pairs of left row `i` with the right rows from `j` on. */
  function Matches(i: nat, key: Key, rk: seq<Key>, j: nat): (ps: seq<(nat, nat)>)
    ensures forall k :: 0 <= k < |ps| ==> ps[k].0 == i && j <= ps[k].1 < |rk| && rk[ps[k].1] == key
    decreases |rk| - j
  {
    if j >= |rk| then []
    else (if rk[j] == key then [(i, j)] else []) + Matches(i, key, rk, j + 1)
  }

  lemma {:induction false} MatchesComplete(i: nat, key: Key, rk: seq<Key>, j: nat, m: nat)
    requires j <= m < |rk| && rk[m] == key
    ensures (i, m) in Matches(i, key, rk, j)
    decreases m - j
  {
    if j < m {
      MatchesComplete(i, key, rk, j + 1, m);
    }
  }

  lemma {:induction false} MatchesNone(i: nat, key: Key, rk: seq<Key>, j: nat)
    requires key !in rk
    ensures Matches(i, key, rk, j) == []
    decreases |rk| - j
  {
    if j < |rk| {
      MatchesNone(i, key, rk, j + 1);
    }
  }

  /** The inner join is exact: rows `i` and `j` are paired exactly when
      their keys are equal. */
  lemma {:induction false} PairsExact(lk: seq<Key>, rk: seq<Key>, i: nat, j: nat)
    ensures (i, j) in Pairs(lk, rk) <==> i < |lk| && j < |rk| && lk[i] == rk[j]
  {
    var ps := Pairs(lk, rk);
    if (i, j) in ps {
      var k :| 0 <= k < |ps| && ps[k] == (i, j);
    }
    if i < |lk| && j < |rk| && lk[i] == rk[j] {
      var n := |lk| - 1;
      var front := Pairs(lk[..n], rk);
      if i < n {
        PairsExact(lk[..n], rk, i, j);
        assert (i, j) in front;
      } else {
        MatchesComplete(n, lk[n], rk, 0, j);
      }
    }
  }

  /** Lines 98-102, on row positions: each merged row with every group row
      of its key, or once with no group (`None`) when there is none. */
  function LeftPairs(mk: seq<Key>, gk: seq<Key>): (ps: seq<(nat, Option<nat>)>)
    ensures forall k :: 0 <= k < |ps| ==> ps[k].0 < |mk|
    ensures forall k :: 0 <= k < |ps| && ps[k].1.Some? ==> ps[k].1.value < |gk| && gk[ps[k].1.value] == mk[ps[k].0]
    ensures forall k :: 0 <= k < |ps| && ps[k].1.None? ==> mk[ps[k].0] !in gk
  {
    if mk == [] then []
    else
      var n := |mk| - 1;
      var front := LeftPairs(mk[..n], gk);
      assert forall k :: 0 <= k < |front| ==> mk[..n][front[k].0] == mk[front[k].0];
      front + LeftRow(n, mk[n], gk)
  }

  /** The rows merged row `i` becomes: one per matching group row, or one
      with no group. */
  function LeftRow(i: nat, key: Key, gk: seq<Key>): (ps: seq<(nat, Option<nat>)>)
    ensures |ps| >= 1
    ensures forall k :: 0 <= k < |ps| ==> ps[k].0 == i
    ensures forall k :: 0 <= k < |ps| && ps[k].1.Some? ==> ps[k].1.value < |gk| && gk[ps[k].1.value] == key
    ensures forall k :: 0 <= k < |ps| && ps[k].1.None? ==> key !in gk
  {
    var hits := Matches(i, key, gk, 0);
    if hits == [] then NoMatch(i, key, gk); [(i, None)] else Lift(hits)
  }

  lemma NoMatch(i: nat, key: Key, gk: seq<Key>)
    requires Matches(i, key, gk, 0) == []
    ensures key !in gk
  {
    if key in gk {
      var m :| 0 <= m < |gk| && gk[m] == key;
      MatchesComplete(i, key, gk, 0, m);
    }
  }

  function Lift(ps: seq<(nat, nat)>): (r: seq<(nat, Option<nat>)>)
    ensures |r| == |ps| && forall k :: 0 <= k < |ps| ==> r[k] == (ps[k].0, Some(ps[k].1))
  {
    seq(|ps|, k requires 0 <= k < |ps| => (ps[k].0, Some(ps[k].1)))
  }

  /** The left join is complete: merged row `p` comes out with every group
      row of its key, and with no group when there is none. */
  lemma {:induction false} LeftPairsComplete(mk: seq<Key>, gk: seq<Key>, p: nat, g: Option<nat>)
    requires p < |mk|
    requires g.Some? ==> g.value < |gk| && gk[g.value] == mk[p]
    requires g.None? ==> mk[p] !in gk
    ensures (p, g) in LeftPairs(mk, gk)
  {
    var n := |mk| - 1;
    var front := LeftPairs(mk[..n], gk);
    assert LeftPairs(mk, gk) == front + LeftRow(n, mk[n], gk);
    if p < n {
      assert mk[..n][p] == mk[p];
      LeftPairsComplete(mk[..n], gk, p, g);
    } else {
      var hits := Matches(n, mk[n], gk, 0);
      match g
      case None =>
        MatchesNone(n, mk[n], gk, 0);
      case Some(h) =>
        MatchesComplete(n, mk[n], gk, 0, h);
        var q :| 0 <= q < |hits| && hits[q] == (n, h);
        assert Lift(hits)[q] == (p, g);
    }
  }

  // ---------------------------------------------------------------- the comparison

  /** A row of the merged frame once the group is joined in, with the ledger
      row, the CAD row and the group row it came from. */
  datatype Joined = Joined(left: nat, right: nat, grp: Option<nat>,
                           account: Key, desc: Cell, pnl: int, cad: Amount, delta: Amount, group: Cell)

  /** Line 95: CAD less PnL; NaN stays NaN. */
  function Delta(cad: Amount, pnl: int): (d: Amount)
    ensures cad.NaN? <==> d.NaN?
    ensures cad.Real? ==> d.x + pnl as real == cad.x
  {
    match cad
    case NaN => NaN
    case Real(x) => Real(x - pnl as real)
  }

  /** Lines 114-117: the group is Revenue or Variable Cost and the delta is
      not zero (NaN is unequal to zero). */
  predicate Keep(j: Joined) {
    (j.group == Text("Revenue") || j.group == Text("Variable Cost")) && j.delta != Real(0.0)
  }

  /** The rows kept, in order. */
  function Kept(s: seq<Joined>): (r: seq<Joined>)
    ensures |r| <= |s|
    ensures forall x :: x in r <==> x in s && Keep(x)
  {
    if s == [] then []
    else
      var n := |s| - 1;
      var front := Kept(s[..n]);
      assert s == s[..n] + [s[n]];
      front + if Keep(s[n]) then [s[n]] else []
  }

  /** A group-table row from "Account Groups": the account and its
      `High CK (group)`, blank when the cell is. */
  datatype GroupRow = GroupRow(account: Cell, group: Cell)

  /** The inputs the source reads: whether each sheet exists, the header
      row and data rows of the ledger ("PnL_CAN_GL") and of the CAD data
      ("Data Sort CAD"), the header row of "Account Groups" and the account
      and group cells of its rows, and the month the run is for. */
  datatype Inputs = Inputs(hasPnl: bool, pnlHeader: seq<Cell>, pnlRows: seq<seq<Cell>>,
                           hasCad: bool, cadHeader: seq<Cell>, cadRows: seq<seq<Cell>>,
                           hasGroups: bool, groupHeader: seq<Cell>, groups: seq<GroupRow>, month: string)

  const AccountNumber: Cell := Text("Account Number")
  const Account2: Cell := Text("Account2")
  const AccountDesc: Cell := Text("Account Desc")
  const HighCk: Cell := Text("High CK (group)")

  /** Where the columns the comparison reads are: the ledger's month (its
      last column), the CAD month, the two account columns, and the one
      sheet (`true` for the ledger) holding "Account Desc". */
  datatype Pos = Pos(month: nat, cadMonth: nat, account: nat, account2: nat, desc: (bool, nat))

  /** The last ledger header, the column `pnl_latest_month` names. */
  function LastHeader(inp: Inputs): Cell
    requires inp.pnlHeader != []
  {
    inp.pnlHeader[|inp.pnlHeader| - 1]
  }

  /** Every check of lines 22-128 on the sheets and their headers passes:
      - lines 22-25 and 75: the three sheets exist;
      - line 37: the ledger has a column;
      - lines 55, 65, 69, 79 and 81: the month is a CAD header, the account
        columns are headers of their sheets, and the group sheet has
        "Account Number" and "High CK (group)";
      - lines 67 and 71: each account header occurs once, so the column is a
        series that `.str` applies to;
      - line 95: the first merge suffixes a header found in both sheets, so
        `{month}_CAD` and `{pnl_latest_month}_PnL` exist exactly when the
        month is also a ledger header and the last ledger header also a CAD
        header; each occurs once, or the difference is a frame of several
        columns that cannot be assigned to "Delta";
      - line 98: "Account Number" is no CAD header, or the first merge
        suffixes it and the second finds no key;
      - line 104: "High CK (group)" is a header of both sheets or of neither,
        or the second merge suffixes it;
      - line 127: "Account Desc" is a header of exactly one sheet, and so
        keeps its name through the merge. */
  predicate HeadersPass(inp: Inputs) {
    && inp.hasPnl && inp.hasCad && inp.pnlHeader != [] && Text(inp.month) in inp.cadHeader
    && AccountsPass(inp) && MergePass(inp)
  }

  /** The checks of lines 65-82: the account columns and the group sheet. */
  predicate AccountsPass(inp: Inputs) {
    var p, c := inp.pnlHeader, inp.cadHeader;
    && AccountNumber in p && Account2 in c
    && multiset(p)[AccountNumber] == 1 && multiset(c)[Account2] == 1
    && inp.hasGroups && AccountNumber in inp.groupHeader && HighCk in inp.groupHeader
  }

  /** The checks of lines 95-128: the columns the merges name. */
  predicate MergePass(inp: Inputs)
    requires inp.pnlHeader != []
  {
    var p, c, month := inp.pnlHeader, inp.cadHeader, Text(inp.month);
    && month in p && LastHeader(inp) in c
    && multiset(p)[LastHeader(inp)] == 1 && multiset(c)[month] == 1
    && AccountNumber !in c
    && (HighCk in p <==> HighCk in c)
    && (AccountDesc in p <==> AccountDesc !in c)
  }

  /** The column positions of a run whose header checks pass. */
  function Locate(inp: Inputs): (r: Option<Pos>)
    ensures r.Some? <==> HeadersPass(inp)
    ensures r.Some? ==> Located(inp, r.value)
  {
    if !HeadersPass(inp) then None
    else
      var p, c := inp.pnlHeader, inp.cadHeader;
      var cm, pa, ca := IndexOf(c, Text(inp.month)).value, IndexOf(p, AccountNumber).value, IndexOf(c, Account2).value;
      var desc := if AccountDesc in p then (true, IndexOf(p, AccountDesc).value) else (false, IndexOf(c, AccountDesc).value);
      OnlyAt(p, LastHeader(inp), |p| - 1);
      OnlyAt(c, Text(inp.month), cm);
      OnlyAt(p, AccountNumber, pa);
      OnlyAt(c, Account2, ca);
      Some(Pos(|p| - 1, cm, pa, ca, desc))
  }

  /** The month and account positions are the only columns of their
      headers; "Account Desc" is the first column of its header in the sheet
      that has it. */
  ghost predicate Located(inp: Inputs, pos: Pos) {
    && pos.month == |inp.pnlHeader| - 1
    && Only(inp.cadHeader, Text(inp.month), pos.cadMonth)
    && Only(inp.pnlHeader, AccountNumber, pos.account)
    && Only(inp.cadHeader, Account2, pos.account2)
    && pos.desc.0 == (AccountDesc in inp.pnlHeader)
    && FirstAt(if pos.desc.0 then inp.pnlHeader else inp.cadHeader, AccountDesc, pos.desc.1)
  }

  ghost predicate FirstAt(s: seq<Cell>, x: Cell, i: nat) {
    i < |s| && s[i] == x && x !in s[..i]
  }

  /** Column `i` is the one column holding `x`. */
  ghost predicate Only(s: seq<Cell>, x: Cell, i: nat) {
    i < |s| && s[i] == x && forall k :: 0 <= k < |s| && s[k] == x ==> k == i
  }

  /** A header that occurs once occurs nowhere but where it is found. */
  lemma OnlyAt(s: seq<Cell>, x: Cell, i: nat)
    requires i < |s| && s[i] == x && multiset(s)[x] == 1
    ensures Only(s, x, i)
  {
    forall k | 0 <= k < |s| && s[k] == x
      ensures k == i
    {
      if k != i {
        TwoHits(s, i, k, x);
      }
    }
  }

  /** Both month columns convert in every row. */
  ghost predicate Converts(inp: Inputs, pos: Pos) {
    AllConvert(inp.pnlRows, pos.month, PnlValue) && AllConvert(inp.cadRows, pos.cadMonth, CadValue)
  }

  /** What a merged row is made of: a ledger row and a CAD row of the same
      account, their converted values and difference, the description from
      the sheet that has it, and the group of the group row it was joined
      with, or blank when the account has none. */
  ghost predicate Joins(inp: Inputs, pos: Pos, j: Joined) {
    && j.left < |inp.pnlRows| && j.right < |inp.cadRows|
    && j.account == KeyOf(Col(inp.pnlRows[j.left], pos.account))
    && j.account == KeyOf(Col(inp.cadRows[j.right], pos.account2))
    && PnlValue(Col(inp.pnlRows[j.left], pos.month)) == Some(j.pnl)
    && CadValue(Col(inp.cadRows[j.right], pos.cadMonth)) == Some(j.cad)
    && j.delta == Delta(j.cad, j.pnl)
    && j.desc == (if pos.desc.0 then Col(inp.pnlRows[j.left], pos.desc.1) else Col(inp.cadRows[j.right], pos.desc.1))
    && Grouped(inp.groups, j)
  }

  ghost predicate Grouped(groups: seq<GroupRow>, j: Joined) {
    match j.grp
    case Some(h) => h < |groups| && KeyOf(groups[h].account) == j.account && j.group == groups[h].group
    case None => j.group == Empty && forall h :: 0 <= h < |groups| ==> KeyOf(groups[h].account) != j.account
  }

  ghost predicate PnlAt(inp: Inputs, pos: Pos, pv: seq<int>) {
    ValuesAt(inp.pnlRows, pos.month, PnlValue, pv)
  }

  ghost predicate CadAt(inp: Inputs, pos: Pos, cv: seq<Amount>) {
    ValuesAt(inp.cadRows, pos.cadMonth, CadValue, cv)
  }

  function GroupKeys(groups: seq<GroupRow>): (gk: seq<Key>)
    ensures |gk| == |groups| && forall h :: 0 <= h < |groups| ==> gk[h] == KeyOf(groups[h].account)
  {
    seq(|groups|, h requires 0 <= h < |groups| => KeyOf(groups[h].account))
  }

  /** One merged row from ledger row `i`, CAD row `j` and group row `g`. */
  function Join(inp: Inputs, pos: Pos, pv: seq<int>, cv: seq<Amount>, i: nat, j: nat, g: Option<nat>): (r: Joined)
    requires PnlAt(inp, pos, pv) && CadAt(inp, pos, cv)
    requires i < |inp.pnlRows| && j < |inp.cadRows|
    requires KeyOf(Col(inp.pnlRows[i], pos.account)) == KeyOf(Col(inp.cadRows[j], pos.account2))
    requires g.Some? ==> g.value < |inp.groups| && KeyOf(inp.groups[g.value].account) == KeyOf(Col(inp.pnlRows[i], pos.account))
    requires g.None? ==> KeyOf(Col(inp.pnlRows[i], pos.account)) !in GroupKeys(inp.groups)
    ensures Joins(inp, pos, r) && r.left == i && r.right == j && r.grp == g
  {
    var d := if pos.desc.0 then Col(inp.pnlRows[i], pos.desc.1) else Col(inp.cadRows[j], pos.desc.1);
    var grp := match g case Some(h) => inp.groups[h].group case None => Empty;
    var key := KeyOf(Col(inp.pnlRows[i], pos.account));
    assert g.None? ==> forall h :: 0 <= h < |inp.groups| ==> GroupKeys(inp.groups)[h] != key;
    Joined(i, j, g, key, d, pv[i], cv[j], Delta(cv[j], pv[i]), grp)
  }

  /** The key of each merged row: that of its ledger row. */
  function MergedKeys(lk: seq<Key>, ps: seq<(nat, nat)>): (mk: seq<Key>)
    requires forall p :: 0 <= p < |ps| ==> ps[p].0 < |lk|
    ensures |mk| == |ps| && forall p :: 0 <= p < |ps| ==> mk[p] == lk[ps[p].0]
  {
    seq(|ps|, p requires 0 <= p < |ps| => lk[ps[p].0])
  }

  /** Row `k` of the left join, built from the pair and group it names. */
  function JoinAt(inp: Inputs, pos: Pos, pv: seq<int>, cv: seq<Amount>, ps: seq<(nat, nat)>,
                  lp: seq<(nat, Option<nat>)>, k: nat): (r: Joined)
    requires PnlAt(inp, pos, pv) && CadAt(inp, pos, cv)
    requires ps == Pairs(Keys(inp.pnlRows, pos.account), Keys(inp.cadRows, pos.account2))
    requires lp == LeftPairs(MergedKeys(Keys(inp.pnlRows, pos.account), ps), GroupKeys(inp.groups))
    requires k < |lp|
    ensures Joins(inp, pos, r) && r.left == ps[lp[k].0].0 && r.right == ps[lp[k].0].1 && r.grp == lp[k].1
  {
    var lk := Keys(inp.pnlRows, pos.account);
    var mk := MergedKeys(lk, ps);
    var p := lp[k].0;
    assert mk[p] == lk[ps[p].0];
    Join(inp, pos, pv, cv, ps[p].0, ps[p].1, lp[k].1)
  }

  /** Lines 87-102: the inner join of the ledger and the CAD data on the
      account, then the left join with the account groups. */
  function JoinedRows(inp: Inputs, pos: Pos, pv: seq<int>, cv: seq<Amount>): (js: seq<Joined>)
    requires PnlAt(inp, pos, pv) && CadAt(inp, pos, cv)
    ensures forall k :: 0 <= k < |js| ==> Joins(inp, pos, js[k])
  {
    var ps := Pairs(Keys(inp.pnlRows, pos.account), Keys(inp.cadRows, pos.account2));
    var lp := LeftPairs(MergedKeys(Keys(inp.pnlRows, pos.account), ps), GroupKeys(inp.groups));
    JoinList(inp, pos, pv, cv, ps, lp)
  }

  /** The merged rows the left-join pairs `lp` name, in order. */
  function JoinList(inp: Inputs, pos: Pos, pv: seq<int>, cv: seq<Amount>, ps: seq<(nat, nat)>,
                    lp: seq<(nat, Option<nat>)>): (js: seq<Joined>)
    requires PnlAt(inp, pos, pv) && CadAt(inp, pos, cv)
    requires ps == Pairs(Keys(inp.pnlRows, pos.account), Keys(inp.cadRows, pos.account2))
    requires lp == LeftPairs(MergedKeys(Keys(inp.pnlRows, pos.account), ps), GroupKeys(inp.groups))
    ensures |js| == |lp|
    ensures forall k :: 0 <= k < |js| ==> Joins(inp, pos, js[k])
    ensures forall k :: 0 <= k < |js| ==> js[k].left == ps[lp[k].0].0 && js[k].right == ps[lp[k].0].1 && js[k].grp == lp[k].1
  {
    seq(|lp|, k requires 0 <= k < |lp| => JoinAt(inp, pos, pv, cv, ps, lp, k))
  }

  /** Every ledger row and CAD row of the same account are merged, once with
      each group row of that account, or once with no group when it has
      none. */
  lemma JoinedComplete(inp: Inputs, pos: Pos, pv: seq<int>, cv: seq<Amount>, i: nat, j: nat, g: Option<nat>)
    requires PnlAt(inp, pos, pv) && CadAt(inp, pos, cv)
    requires i < |inp.pnlRows| && j < |inp.cadRows|
    requires KeyOf(Col(inp.pnlRows[i], pos.account)) == KeyOf(Col(inp.cadRows[j], pos.account2))
    requires g.Some? ==> g.value < |inp.groups| && KeyOf(inp.groups[g.value].account) == KeyOf(Col(inp.pnlRows[i], pos.account))
    requires g.None? ==> forall h :: 0 <= h < |inp.groups| ==> KeyOf(inp.groups[h].account) != KeyOf(Col(inp.pnlRows[i], pos.account))
    ensures exists k :: (0 <= k < |JoinedRows(inp, pos, pv, cv)| && JoinedRows(inp, pos, pv, cv)[k].left == i
      && JoinedRows(inp, pos, pv, cv)[k].right == j && JoinedRows(inp, pos, pv, cv)[k].grp == g)
  {
    var lk, rk := Keys(inp.pnlRows, pos.account), Keys(inp.cadRows, pos.account2);
    var ps := Pairs(lk, rk);
    var p := PairAt(lk, rk, i, j);
    var mk := MergedKeys(lk, ps);
    var gk := GroupKeys(inp.groups);
    assert mk[p] == lk[i];
    if g.None? {
      forall h | 0 <= h < |gk|
        ensures gk[h] != mk[p]
      {
        assert gk[h] == KeyOf(inp.groups[h].account);
      }
    }
    var k := LeftAt(mk, gk, p, g);
    var lp := LeftPairs(mk, gk);
    var js := JoinList(inp, pos, pv, cv, ps, lp);
    assert JoinedRows(inp, pos, pv, cv) == js;
    assert js[k].left == i && js[k].right == j && js[k].grp == g;
  }

  /** Where the inner join pairs rows `i` and `j`. */
  lemma PairAt(lk: seq<Key>, rk: seq<Key>, i: nat, j: nat) returns (p: nat)
    requires i < |lk| && j < |rk| && lk[i] == rk[j]
    ensures p < |Pairs(lk, rk)| && Pairs(lk, rk)[p] == (i, j)
  {
    PairsExact(lk, rk, i, j);
    var ps := Pairs(lk, rk);
    p :| 0 <= p < |ps| && ps[p] == (i, j);
  }

  /** Where the left join puts merged row `p` with group row `g`. */
  lemma LeftAt(mk: seq<Key>, gk: seq<Key>, p: nat, g: Option<nat>) returns (k: nat)
    requires p < |mk|
    requires g.Some? ==> g.value < |gk| && gk[g.value] == mk[p]
    requires g.None? ==> mk[p] !in gk
    ensures k < |LeftPairs(mk, gk)| && LeftPairs(mk, gk)[k] == (p, g)
  {
    LeftPairsComplete(mk, gk, p, g);
    var lp := LeftPairs(mk, gk);
    k :| 0 <= k < |lp| && lp[k] == (p, g);
  }

  /** Lines 20-135 `create_comparison_sheet` up to the sheet written: the
      kept merged rows, or the error every failed check ends the run with,
      in the order the source checks. */
  function Compare(inp: Inputs): (r: Result<seq<Joined>>)
    ensures r.Ok? ==> Locate(inp).Some? && forall k :: 0 <= k < |r.value| ==> Keep(r.value[k]) && Joins(inp, Locate(inp).value, r.value[k])
  {
    match Check(inp)
    case Err(e) => Err(e)
    case Ok(c) => Ok(KeptRows(inp, c.pos, c.pv, c.cv))
  }

  /** The column positions and both converted month columns. */
  datatype Checked = Checked(pos: Pos, pv: seq<int>, cv: seq<Amount>)

  /** The message of an exception the `except` of lines 148-150 turns into
      an exit. */
  const Failed: string := "Failed to create Comparison sheet."

  /** Lines 22-128 in the source's order: the message of the first check
      that fails, or where the columns are and what the month columns
      convert to. */
  function Check(inp: Inputs): (r: Result<Checked>)
    ensures r.Ok? ==> Locate(inp) == Some(r.value.pos) && PnlAt(inp, r.value.pos, r.value.pv) && CadAt(inp, r.value.pos, r.value.cv)
  {
    if !inp.hasPnl || !inp.hasCad || inp.pnlHeader == [] then Err(Failed)
    else
      match Convert(inp.pnlRows, |inp.pnlHeader| - 1, PnlValue)
      case None => Err(Failed)
      case Some(pv) =>
        match IndexOf(inp.cadHeader, Text(inp.month))
        case None => Err("Latest month not found in Data Sort CAD sheet.")
        case Some(cm) =>
          match Convert(inp.cadRows, cm, CadValue)
          case None => Err(Failed)
          case Some(cv) =>
            match HeaderError(inp)
            case Some(e) => Err(e)
            case None =>
              var pos := Locate(inp).value;
              assert cm == pos.cadMonth;
              Ok(Checked(pos, pv, cv))
  }

  /** Lines 65-128 after the month columns convert: the message of the
      first header check that fails, `None` when all pass. */
  function HeaderError(inp: Inputs): (e: Option<string>)
    requires inp.hasPnl && inp.hasCad && inp.pnlHeader != [] && Text(inp.month) in inp.cadHeader
    ensures e.None? <==> HeadersPass(inp)
  {
    match AccountError(inp)
    case Some(e) => Some(e)
    case None => MergeError(inp)
  }

  /** Lines 65-82: the first failing check on the account columns and the
      group sheet. */
  function AccountError(inp: Inputs): (e: Option<string>)
    ensures e.None? <==> AccountsPass(inp)
  {
    var p, c, g := inp.pnlHeader, inp.cadHeader, inp.groupHeader;
    if AccountNumber !in p then Some("'Account Number' not found in PnL_CAN_GL sheet.")
    else if multiset(p)[AccountNumber] > 1 then Some(Failed)
    else if Account2 !in c then Some("'Account2' not found in Data Sort CAD sheet.")
    else if multiset(c)[Account2] > 1 then Some(Failed)
    else if !inp.hasGroups then Some("Worksheet 'Account Groups' not found in ref_table. Please add it.")
    else if AccountNumber !in g then Some("'Account Number' missing in 'Account Groups' sheet.")
    else if HighCk !in g then Some("'High CK (group)' missing in 'Account Groups' sheet.")
    else None
  }

  /** Lines 95-128: the first failing step among the difference, the
      second merge, the group filter and the column selection. */
  function MergeError(inp: Inputs): (e: Option<string>)
    requires inp.pnlHeader != [] && Text(inp.month) in inp.cadHeader
    ensures e.None? <==> MergePass(inp)
  {
    var p, c := inp.pnlHeader, inp.cadHeader;
    assert LastHeader(inp) in p;
    if || Text(inp.month) !in p || LastHeader(inp) !in c
       || multiset(p)[LastHeader(inp)] > 1 || multiset(c)[Text(inp.month)] > 1 then Some(Failed)
    else if AccountNumber in c then Some(Failed)
    else if (HighCk in p) != (HighCk in c) then Some(Failed)
    else if (AccountDesc in p) == (AccountDesc in c) then Some("Missing 'Account Desc' in final data for comparison.")
    else None
  }

  /** The merged rows lines 114-117 keep. */
  function KeptRows(inp: Inputs, pos: Pos, pv: seq<int>, cv: seq<Amount>): (r: seq<Joined>)
    requires PnlAt(inp, pos, pv) && CadAt(inp, pos, cv)
    ensures forall k :: 0 <= k < |r| ==> Keep(r[k]) && Joins(inp, pos, r[k])
  {
    var js := JoinedRows(inp, pos, pv, cv);
    var r := Kept(js);
    assert forall k :: 0 <= k < |r| ==> r[k] in js;
    r
  }

  /** The run gets through exactly when every check on the sheets and
      their headers passes and both month columns convert. */
  lemma CompareSucceeds(inp: Inputs)
    ensures Compare(inp).Ok? <==> HeadersPass(inp) && Converts(inp, Locate(inp).value)
  {
    CheckSucceeds(inp);
  }

  lemma CheckSucceeds(inp: Inputs)
    ensures Check(inp).Ok? <==> HeadersPass(inp) && Converts(inp, Locate(inp).value)
  {
    if Check(inp).Ok? {
      CheckedPasses(inp);
    } else if HeadersPass(inp) && Converts(inp, Locate(inp).value) {
      PassingChecked(inp);
    }
  }

  /** A run that gets through passed its header checks and converted both
      month columns. */
  lemma CheckedPasses(inp: Inputs)
    requires Check(inp).Ok?
    ensures HeadersPass(inp) && Converts(inp, Locate(inp).value)
  {
    var c := Check(inp).value;
    ValuesConvert(inp.pnlRows, c.pos.month, PnlValue, c.pv);
    ValuesConvert(inp.cadRows, c.pos.cadMonth, CadValue, c.cv);
  }

  /** A run whose header checks pass and whose month columns convert gets
      through. */
  lemma PassingChecked(inp: Inputs)
    requires HeadersPass(inp) && Converts(inp, Locate(inp).value)
    ensures Check(inp).Ok?
  {
    PassingConverts(inp);
    assert HeaderError(inp).None?;
  }

  /** Both month columns convert at the positions `Check` reads them. */
  lemma PassingConverts(inp: Inputs)
    requires HeadersPass(inp) && Converts(inp, Locate(inp).value)
    ensures Convert(inp.pnlRows, |inp.pnlHeader| - 1, PnlValue).Some?
    ensures Convert(inp.cadRows, IndexOf(inp.cadHeader, Text(inp.month)).value, CadValue).Some?
  {
    assert IndexOf(inp.cadHeader, Text(inp.month)).value == Locate(inp).value.cadMonth;
  }

  /** Converted values show that every value converts. */
  lemma ValuesConvert<T>(rows: seq<seq<Cell>>, k: nat, conv: Cell -> Option<T>, vs: seq<T>)
    requires ValuesAt(rows, k, conv, vs)
    ensures AllConvert(rows, k, conv)
  {
    assert forall i :: 0 <= i < |rows| ==> conv(Col(rows[i], k)) == Some(vs[i]);
  }

  /** Every merged row that is kept is among the kept rows. */
  lemma KeptComplete(inp: Inputs, pos: Pos, pv: seq<int>, cv: seq<Amount>, i: nat, j: nat, h: nat)
    requires PnlAt(inp, pos, pv) && CadAt(inp, pos, cv)
    requires i < |inp.pnlRows| && j < |inp.cadRows| && h < |inp.groups|
    requires KeyOf(Col(inp.pnlRows[i], pos.account)) == KeyOf(Col(inp.cadRows[j], pos.account2))
    requires KeyOf(inp.groups[h].account) == KeyOf(Col(inp.pnlRows[i], pos.account))
    requires inp.groups[h].group == Text("Revenue") || inp.groups[h].group == Text("Variable Cost")
    requires Delta(cv[j], pv[i]) != Real(0.0)
    ensures exists k :: (0 <= k < |KeptRows(inp, pos, pv, cv)| && KeptRows(inp, pos, pv, cv)[k].left == i
      && KeptRows(inp, pos, pv, cv)[k].right == j && KeptRows(inp, pos, pv, cv)[k].grp == Some(h))
  {
    var js := JoinedRows(inp, pos, pv, cv);
    JoinedComplete(inp, pos, pv, cv, i, j, Some(h));
    var k :| 0 <= k < |js| && js[k].left == i && js[k].right == j && js[k].grp == Some(h);
    assert Joins(inp, pos, js[k]);
    assert js[k].pnl == pv[i] && js[k].cad == cv[j];
    assert Keep(js[k]);
    var r := KeptRows(inp, pos, pv, cv);
    assert js[k] in r;
  }

  /** Every merged row that is kept reaches the sheet: a ledger row and a CAD
      row of the same account, with a group row of that account in Revenue or
      Variable Cost and a nonzero difference. */
  lemma CompareComplete(inp: Inputs, pos: Pos, i: nat, j: nat, h: nat, x: int, y: Amount)
    requires Compare(inp).Ok? && Locate(inp) == Some(pos)
    requires i < |inp.pnlRows| && j < |inp.cadRows| && h < |inp.groups|
    requires KeyOf(Col(inp.pnlRows[i], pos.account)) == KeyOf(Col(inp.cadRows[j], pos.account2))
    requires KeyOf(inp.groups[h].account) == KeyOf(Col(inp.pnlRows[i], pos.account))
    requires inp.groups[h].group == Text("Revenue") || inp.groups[h].group == Text("Variable Cost")
    requires PnlValue(Col(inp.pnlRows[i], pos.month)) == Some(x)
    requires CadValue(Col(inp.cadRows[j], pos.cadMonth)) == Some(y)
    requires Delta(y, x) != Real(0.0)
    ensures exists k :: (0 <= k < |Compare(inp).value| && Compare(inp).value[k].left == i
      && Compare(inp).value[k].right == j && Compare(inp).value[k].grp == Some(h))
  {
    var c := Check(inp).value;
    KeptComplete(inp, pos, c.pv, c.cv, i, j, h);
  }

  /** Lines 119-135: the five columns written, values renamed. */
  const OutColumns: seq<string> := ["Account Number", "Account Desc", "PnL_CAN_GL", "Data_Sort_CAD", "Delta"]

  /** One output row. */
  datatype OutRow = OutRow(account: Key, desc: Cell, pnl: int, cad: Amount, delta: Amount)

  function Out(j: Joined): OutRow {
    OutRow(j.account, j.desc, j.pnl, j.cad, j.delta)
  }

  function OutRows(js: seq<Joined>): (rs: seq<OutRow>)
    ensures |rs| == |js| && forall k :: 0 <= k < |js| ==> rs[k] == Out(js[k])
  {
    seq(|js|, k requires 0 <= k < |js| => Out(js[k]))
  }
}
