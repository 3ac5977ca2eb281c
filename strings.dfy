/** Text helpers shared by every module: Python's `str.strip`/`str.upper` on
    ASCII, digit strings, decimal rendering and the decimal parser behind
    `float()` and `pd.to_numeric`. */
module Strings {
  import opened Wrappers

  // ---------------------------------------------------------------- spaces

  /** `str.isspace()` on ASCII: tab to carriage return, the four information
      separators 0x1C-0x1F and the space. */
  predicate IsSpace(c: char) {
    ('\t' <= c <= '\r') || ('\U{1C}' <= c <= ' ')
  }

  /** Index of the first non-space at or after `i`, or `|s|`. */
  function LeadEnd(s: string, i: nat): (r: nat)
    requires i <= |s|
    ensures i <= r <= |s| && (r < |s| ==> !IsSpace(s[r]))
    decreases |s| - i
  {
    if i < |s| && IsSpace(s[i]) then LeadEnd(s, i + 1) else i
  }

  /** Index just after the last non-space before `j` and at or after
      `lo`, or `lo`. */
  function TrailStart(s: string, lo: nat, j: nat): (r: nat)
    requires lo <= j <= |s|
    ensures lo <= r <= j && (r > lo ==> !IsSpace(s[r - 1]))
    decreases j
  {
    if j > lo && IsSpace(s[j - 1]) then TrailStart(s, lo, j - 1) else j
  }

  /** No whitespace at either end. */
  predicate Trimmed(s: string) {
    |s| == 0 || (!IsSpace(s[0]) && !IsSpace(s[|s| - 1]))
  }

  /** `str.strip()` with no argument. */
  function Strip(s: string): (r: string)
    ensures |r| <= |s|
    ensures Trimmed(r)
  {
    var lo := LeadEnd(s, 0);
    s[lo..TrailStart(s, lo, |s|)]
  }

  /** A text with no surrounding whitespace is left as it is. */
  lemma StripTrimmed(s: string)
    requires Trimmed(s)
    ensures Strip(s) == s
  {
    assert s[0..|s|] == s;
  }

  lemma StripIdempotent(s: string)
    ensures Strip(Strip(s)) == Strip(s)
  {
    StripTrimmed(Strip(s));
  }

  // ---------------------------------------------------------------- case

  function UpperChar(c: char): char {
    if 'a' <= c <= 'z' then (c as int - 32) as char else c
  }

  function LowerChar(c: char): char {
    if 'A' <= c <= 'Z' then (c as int + 32) as char else c
  }

  /** `str.upper()` on ASCII letters. */
  function Upper(s: string): (r: string)
    ensures |r| == |s| && forall i :: 0 <= i < |s| ==> r[i] == UpperChar(s[i])
  {
    seq(|s|, i requires 0 <= i < |s| => UpperChar(s[i]))
  }

  /** `str.lower()` on ASCII letters. */
  function Lower(s: string): (r: string)
    ensures |r| == |s| && forall i :: 0 <= i < |s| ==> r[i] == LowerChar(s[i])
  {
    seq(|s|, i requires 0 <= i < |s| => LowerChar(s[i]))
  }

  /** `needle in haystack` for strings. */
  predicate Contains(haystack: string, needle: string) {
    exists i :: 0 <= i <= |haystack| - |needle| && OccursAt(haystack, needle, i)
  }

  predicate OccursAt(haystack: string, needle: string, i: int)
    requires 0 <= i <= |haystack| - |needle|
  {
    haystack[i..i + |needle|] == needle
  }

  // ---------------------------------------------------------------- digits

  predicate IsDigit(c: char) {
    '0' <= c <= '9'
  }

  predicate AllDigits(s: string) {
    forall i :: 0 <= i < |s| ==> IsDigit(s[i])
  }

  /** The regular expression `^\d{6}$` (ASCII digits). */
  predicate IsSixDigits(s: string) {
    |s| == 6 && AllDigits(s)
  }

  function DigitValue(c: char): nat
    requires IsDigit(c)
  {
    c as int - '0' as int
  }

  function DigitChar(d: nat): (c: char)
    requires d < 10
    ensures IsDigit(c) && DigitValue(c) == d
  {
    ('0' as int + d) as char
  }

  /** The number a digit string denotes; leading zeros add nothing. */
  function DigitsValue(s: string): nat
    requires AllDigits(s)
  {
    if |s| == 0 then 0 else DigitsValue(s[..|s| - 1]) * 10 + DigitValue(s[|s| - 1])
  }

  function Pow10(k: nat): (r: nat)
    ensures r >= 1
  {
    if k == 0 then 1 else 10 * Pow10(k - 1)
  }

  /** Decimal rendering of a natural number, as `str(n)`. */
  function NatText(n: nat): (r: string)
    ensures |r| > 0 && AllDigits(r)
    decreases n
  {
    if n < 10 then [DigitChar(n)] else NatText(n / 10) + [DigitChar(n % 10)]
  }

  /** Decimal rendering of an integer, as `str(i)`. */
  function IntText(i: int): (r: string)
    ensures |r| > 0
  {
    if i >= 0 then NatText(i) else "-" + NatText(-i)
  }

  lemma {:induction false} NatTextValue(n: nat)
    ensures DigitsValue(NatText(n)) == n
    decreases n
  {
    if n >= 10 {
      var t := NatText(n / 10) + [DigitChar(n % 10)];
      assert t[..|t| - 1] == NatText(n / 10);
      NatTextValue(n / 10);
    }
  }

  lemma NatTextInjective(a: nat, b: nat)
    ensures NatText(a) == NatText(b) ==> a == b
  {
    NatTextValue(a);
    NatTextValue(b);
  }

  lemma NatTextNoSpace(n: nat)
    ensures Strip(NatText(n)) == NatText(n)
  {
    var t := NatText(n);
    assert IsDigit(t[0]) && IsDigit(t[|t| - 1]);
    StripTrimmed(t);
  }

  /** `str(n)` has at most `k` digits exactly when `n < 10^k`. */
  lemma {:induction false} NatTextLength(n: nat, k: nat)
    requires k >= 1
    ensures |NatText(n)| <= k <==> n < Pow10(k)
    decreases n
  {
    if n >= 10 {
      if k == 1 {
        assert Pow10(1) == 10;
        assert |NatText(n)| == |NatText(n / 10)| + 1;
      } else {
        NatTextLength(n / 10, k - 1);
        assert n < Pow10(k) <==> n / 10 < Pow10(k - 1);
      }
    } else {
      assert Pow10(k) >= 10 by { Pow10Grows(k); }
    }
  }

  lemma {:induction false} Pow10Grows(k: nat)
    requires k >= 1
    ensures Pow10(k) >= 10
  {
    if k > 1 {
      Pow10Grows(k - 1);
    }
  }

  /** `n` repetitions of `c`. */
  function Repeat(c: char, n: nat): (r: string)
    ensures |r| == n && forall i :: 0 <= i < n ==> r[i] == c
  {
    if n == 0 then [] else [c] + Repeat(c, n - 1)
  }

  /** Left padding with zeros to `width` characters. */
  function PadZeros(t: string, width: nat): (r: string)
    ensures |r| == if |t| >= width then |t| else width
  {
    if |t| >= width then t else Repeat('0', width - |t|) + t
  }

  lemma {:induction false} DigitsValueLeadingZeros(z: nat, t: string)
    requires AllDigits(t)
    ensures AllDigits(Repeat('0', z) + t)
    ensures DigitsValue(Repeat('0', z) + t) == DigitsValue(t)
    decreases |t|
  {
    var s := Repeat('0', z) + t;
    if t == [] {
      assert s == Repeat('0', z);
      ZerosValue(z);
    } else {
      var t' := t[..|t| - 1];
      assert s[..|s| - 1] == Repeat('0', z) + t';
      DigitsValueLeadingZeros(z, t');
    }
  }

  lemma {:induction false} ZerosValue(z: nat)
    ensures DigitsValue(Repeat('0', z)) == 0
  {
    if z > 0 {
      var s := Repeat('0', z);
      assert s[..|s| - 1] == Repeat('0', z - 1);
      ZerosValue(z - 1);
    }
  }

  /** `f"{n:0{w}d}"` for a natural number. */
  function ZeroPadded(n: nat, width: nat): (r: string)
    ensures AllDigits(r) && DigitsValue(r) == n
  {
    DigitsValueLeadingZeros(if |NatText(n)| >= width then 0 else width - |NatText(n)|, NatText(n));
    NatTextValue(n);
    assert |NatText(n)| >= width ==> PadZeros(NatText(n), width) == Repeat('0', 0) + NatText(n);
    PadZeros(NatText(n), width)
  }

  /** `f"{i:06}"`: the sign counts toward the width of six. */
  function SixWide(i: int): string {
    if i >= 0 then ZeroPadded(i, 6) else "-" + ZeroPadded(-i, 5)
  }

  /** A zero-padded project number is six digits exactly for the numbers
      0 to 999999, and then it reads back as the number. */
  lemma SixWideIsSixDigits(i: int)
    ensures IsSixDigits(SixWide(i)) <==> 0 <= i < 1000000
    ensures IsSixDigits(SixWide(i)) ==> DigitsValue(SixWide(i)) == i
  {
    if i >= 0 {
      NatTextLength(i, 6);
      assert Pow10(6) == 1000000;
    } else {
      assert !IsDigit(SixWide(i)[0]);
    }
  }

  // ---------------------------------------------------------------- numbers

  /** Index of the first `c` at or after `i`, or `|s|` when there is
      none. */
  function Find(s: string, c: char, i: nat): (r: nat)
    requires i <= |s|
    ensures i <= r <= |s|
    decreases |s| - i
  {
    if i == |s| || s[i] == c then i else Find(s, c, i + 1)
  }

  /** Without `c` the search runs to the end. */
  lemma {:induction false} FindAbsent(s: string, c: char, i: nat)
    requires i <= |s| && forall k :: i <= k < |s| ==> s[k] != c
    ensures Find(s, c, i) == |s|
    decreases |s| - i
  {
    if i < |s| {
      FindAbsent(s, c, i + 1);
    }
  }

  /** With `c` present the search stops at its first occurrence. */
  lemma {:induction false} FindPresent(s: string, c: char)
    requires c in s
    ensures Find(s, c, 0) < |s| && s[Find(s, c, 0)] == c && c !in s[..Find(s, c, 0)]
  {
    var i :| 0 <= i < |s| && s[i] == c;
    FirstBefore(s, c, 0, i);
  }

  lemma {:induction false} FirstBefore(s: string, c: char, j: nat, i: nat)
    requires j <= i < |s| && s[i] == c && c !in s[..j]
    ensures Find(s, c, j) < |s| && s[Find(s, c, j)] == c && c !in s[..Find(s, c, j)]
    decreases i - j
  {
    if s[j] != c {
      assert s[..j + 1] == s[..j] + [s[j]];
      FirstBefore(s, c, j + 1, i);
    }
  }

  /** The value of the digits of a digit part, underscores skipped:
      "1_000" is 1000. */
  function PartValue(s: string): nat {
    if |s| == 0 then 0
    else if IsDigit(s[|s| - 1]) then PartValue(s[..|s| - 1]) * 10 + DigitValue(s[|s| - 1])
    else PartValue(s[..|s| - 1])
  }

  /** The value of the digits after a decimal point, underscores skipped:
      "25" is 0.25. */
  function PartFraction(s: string): (x: real)
    ensures 0.0 <= x <= 1.0
  {
    if |s| == 0 then 0.0
    else if IsDigit(s[0]) then (DigitValue(s[0]) as real + PartFraction(s[1..])) / 10.0
    else PartFraction(s[1..])
  }

  /** A `digitpart` of Python's float grammar: digits, and, when
      `underscores` holds, single underscores each standing between two
      digits ("1_000"). */
  predicate DigitPart(s: string, underscores: bool) {
    && |s| > 0 && IsDigit(s[0]) && IsDigit(s[|s| - 1])
    && forall i :: 0 <= i < |s| ==> PartChar(s, i, underscores)
  }

  /** Character `i` of a digit part: a digit, or an underscore after a
      digit. */
  predicate PartChar(s: string, i: nat, underscores: bool)
    requires i < |s|
  {
    IsDigit(s[i]) || (underscores && s[i] == '_' && 0 < i && IsDigit(s[i - 1]))
  }

  /** Python's float mantissa: a digit part, optionally a point and another
      digit part, or a point and a digit part ("1.", ".5", "1.5"). */
  function ParseMantissa(s: string, underscores: bool): Option<real> {
    var p := Find(s, '.', 0);
    var whole, frac := s[..p], if p < |s| then s[p + 1..] else [];
    if && (|whole| > 0 || |frac| > 0)
       && (|whole| == 0 || DigitPart(whole, underscores))
       && (|frac| == 0 || DigitPart(frac, underscores))
    then Some(PartValue(whole) as real + PartFraction(frac))
    else None
  }

  /** The exponent after 'e' or 'E': an optional sign and a digit part. */
  function ParseExponent(s: string, underscores: bool): Option<int> {
    var signed := |s| > 0 && (s[0] == '+' || s[0] == '-');
    var digits := if signed then s[1..] else s;
    if DigitPart(digits, underscores) then
      Some(if signed && s[0] == '-' then -(PartValue(digits) as int) else PartValue(digits))
    else None
  }

  /** `m` times ten to the power `e`, one power at a time. */
  function Scale(m: real, e: int): real
    decreases if e >= 0 then e else -e
  {
    if e == 0 then m else if e > 0 then 10.0 * Scale(m, e - 1) else Scale(m, e + 1) / 10.0
  }

  /** Scaling multiplies by `10^e`, or divides by `10^-e`. */
  lemma {:induction false} ScaleIsPower(m: real, e: int)
    ensures e >= 0 ==> Scale(m, e) == m * Pow10(e) as real
    ensures e < 0 ==> Scale(m, e) * Pow10(-e) as real == m
    decreases if e >= 0 then e else -e
  {
    if e > 0 {
      ScaleIsPower(m, e - 1);
      assert Pow10(e) as real == 10.0 * Pow10(e - 1) as real;
    } else if e < 0 {
      ScaleIsPower(m, e + 1);
      assert Pow10(-e) as real == 10.0 * Pow10(-e - 1) as real;
      if e + 1 < 0 {
        assert Scale(m, e + 1) * Pow10(-e - 1) as real == m;
      }
    }
  }

  /** Index of the first 'e' or 'E' at or after `i`, or `|s|` when
      there is none. */
  function FindMark(s: string, i: nat): (r: nat)
    requires i <= |s|
    ensures i <= r <= |s|
    decreases |s| - i
  {
    if i == |s| || s[i] == 'e' || s[i] == 'E' then i else FindMark(s, i + 1)
  }

  /** Without a mark the search runs to the end. */
  lemma {:induction false} MarkAbsent(s: string, i: nat)
    requires i <= |s| && forall k :: i <= k < |s| ==> s[k] != 'e' && s[k] != 'E'
    ensures FindMark(s, i) == |s|
    decreases |s| - i
  {
    if i < |s| {
      MarkAbsent(s, i + 1);
    }
  }

  /** The first mark of `a + "e" + x`, when `a` has none, follows `a`. */
  lemma {:induction false} MarkAfter(a: string, x: string)
    requires 'e' !in a && 'E' !in a
    ensures FindMark(a + "e" + x, 0) == |a|
  {
    var s := a + "e" + x;
    assert forall k :: 0 <= k < |a| ==> s[k] == a[k];
    MarkAbsent(s[..|a|], 0);
    MarkPrefix(s, |a|, 0);
  }

  /** A search that finds nothing before `n` and a mark at `n` stops
      there. */
  lemma {:induction false} MarkPrefix(s: string, n: nat, i: nat)
    requires i <= n < |s| && (s[n] == 'e' || s[n] == 'E')
    requires FindMark(s[..n], i) == n
    ensures FindMark(s, i) == n
    decreases n - i
  {
    if i < n {
      assert s[..n][i] == s[i];
      MarkPrefix(s, n, i + 1);
    }
  }

  /** An unsigned finite literal: a mantissa, optionally followed by an
      exponent ("1e3", "2.5E-1"). */
  function ParseUnsigned(s: string, underscores: bool): Option<real> {
    var p := FindMark(s, 0);
    match ParseMantissa(s[..p], underscores)
    case None => None
    case Some(m) =>
      if p == |s| then Some(m)
      else match ParseExponent(s[p + 1..], underscores)
        case Some(e) => Some(Scale(m, e))
        case None => None
  }

  /** An optional sign, then an unsigned literal. */
  function ParseDecimal(s: string, underscores: bool): Option<real> {
    var signed := |s| > 0 && (s[0] == '-' || s[0] == '+');
    match ParseUnsigned(if signed then s[1..] else s, underscores)
    case Some(x) => Some(if signed && s[0] == '-' then -x else x)
    case None => None
  }

  /** Python's `float(s)` on text, for finite literals: surrounding space
      stripped, then a sign, a mantissa and an exponent, with underscores
      between digits.  `None` is the ValueError. */
  function PyFloat(s: string): Option<real> {
    ParseDecimal(Strip(s), true)
  }

  /** `pd.to_numeric` on one text, for finite literals: the same grammar,
      without underscores.  `None` is the NaN of `errors="coerce"`. */
  function ToNumeric(s: string): Option<real> {
    ParseDecimal(Strip(s), false)
  }

  /** A digit string has no point and no exponent mark. */
  lemma {:induction false} DigitsNoMarks(t: string)
    requires AllDigits(t)
    ensures '.' !in t && 'e' !in t && 'E' !in t
  {
    assert forall k | 0 <= k < |t| :: t[k] != '.' && t[k] != 'e' && t[k] != 'E' by {
      forall k | 0 <= k < |t| ensures t[k] != '.' && t[k] != 'e' && t[k] != 'E' {
        assert IsDigit(t[k]);
      }
    }
  }

  /** On plain digits, skipping underscores changes nothing. */
  lemma {:induction false} PartValueDigits(t: string)
    requires AllDigits(t)
    ensures PartValue(t) == DigitsValue(t)
    decreases |t|
  {
    if t != [] {
      var p := t[..|t| - 1];
      assert forall i :: 0 <= i < |p| ==> p[i] == t[i];
      PartValueDigits(p);
    }
  }

  /** A non-empty digit string is a digit part worth its digits. */
  lemma {:induction false} DigitsPart(t: string, underscores: bool)
    requires |t| > 0 && AllDigits(t)
    ensures DigitPart(t, underscores) && PartValue(t) == DigitsValue(t)
  {
    PartValueDigits(t);
  }

  /** A mantissa without a point is one digit part. */
  lemma {:induction false} PointlessMantissa(s: string, underscores: bool)
    requires '.' !in s
    ensures ParseMantissa(s, underscores) ==
      if |s| > 0 && DigitPart(s, underscores) then Some(PartValue(s) as real) else None
  {
    FindAbsent(s, '.', 0);
    assert s[..|s|] == s;
  }

  /** A literal without point or exponent mark is one digit part. */
  lemma {:induction false} PlainLiteral(s: string, underscores: bool)
    requires '.' !in s && 'e' !in s && 'E' !in s
    ensures ParseUnsigned(s, underscores) ==
      if |s| > 0 && DigitPart(s, underscores) then Some(PartValue(s) as real) else None
  {
    MarkAbsent(s, 0);
    assert s[..|s|] == s;
    PointlessMantissa(s, underscores);
  }

  /** A non-empty digit string, read as a literal. */
  lemma {:induction false} DigitsLiteral(t: string, underscores: bool)
    requires |t| > 0 && AllDigits(t)
    ensures ParseUnsigned(t, underscores) == Some(DigitsValue(t) as real)
  {
    DigitsNoMarks(t);
    DigitsPart(t, underscores);
    PlainLiteral(t, underscores);
  }

  /** A non-empty digit string, read as an exponent, signed or not. */
  lemma {:induction false} DigitsExponent(t: string, underscores: bool)
    requires |t| > 0 && AllDigits(t)
    ensures ParseExponent(t, underscores) == Some(DigitsValue(t) as int)
    ensures ParseExponent("-" + t, underscores) == Some(-(DigitsValue(t) as int))
  {
    DigitsPart(t, underscores);
    assert IsDigit(t[0]);
    var n := "-" + t;
    assert n[0] == '-' && n[1..] == t;
  }

  /** Digits, an 'e' and an exponent: the digits' value scaled. */
  lemma {:induction false} ScaledDigits(a: string, x: string, underscores: bool)
    requires |a| > 0 && AllDigits(a)
    ensures ParseUnsigned(a + "e" + x, underscores) ==
      match ParseExponent(x, underscores)
      case Some(e) => Some(Scale(DigitsValue(a) as real, e))
      case None => None
  {
    DigitsNoMarks(a);
    MarkAfter(a, x);
    Pieces(a, 'e', x);
    DigitsPart(a, underscores);
    PointlessMantissa(a, underscores);
  }

  /** Text that starts and ends with a digit is read unsigned. */
  lemma {:induction false} DigitEnds(s: string, underscores: bool)
    requires |s| > 0 && IsDigit(s[0]) && IsDigit(s[|s| - 1])
    ensures ParseDecimal(Strip(s), underscores) == ParseUnsigned(s, underscores)
  {
    StripTrimmed(s);
  }

  /** The rendering of an integer, read as an exponent, is the integer. */
  lemma {:induction false} IntTextExponent(e: int, underscores: bool)
    ensures ParseExponent(IntText(e), underscores) == Some(e)
  {
    var n: nat := if e >= 0 then e else -e;
    NatTextValue(n);
    DigitsExponent(NatText(n), underscores);
  }

  /** The pieces of `a + [c] + x`. */
  lemma {:induction false} Pieces(a: string, c: char, x: string)
    ensures (a + [c] + x)[..|a|] == a && (a + [c] + x)[|a|] == c && (a + [c] + x)[|a| + 1..] == x
  {
  }

  /** A literal with an exponent is its mantissa scaled: "1e3" is 1000 and
      "5e-1" is 0.5, for `float()` and `pd.to_numeric` alike. */
  lemma {:induction false} ExponentParses(m: nat, e: int, underscores: bool)
    ensures ParseDecimal(Strip(NatText(m) + "e" + IntText(e)), underscores) == Some(Scale(m as real, e))
  {
    var a, x := NatText(m), IntText(e);
    NatTextValue(m);
    IntTextExponent(e, underscores);
    var s := a + "e" + x;
    var n: nat := if e >= 0 then e else -e;
    assert x[|x| - 1] == NatText(n)[|NatText(n)| - 1];
    assert IsDigit(a[0]) && IsDigit(x[|x| - 1]);
    assert s[|s| - 1] == x[|x| - 1] && s[0] == a[0];
    DigitEnds(s, underscores);
    ScaledDigits(a, x, underscores);
  }

  /** Digits, an underscore and digits are worth the digits without it. */
  lemma {:induction false} PartValueUnderscore(a: string, b: string)
    requires AllDigits(a) && AllDigits(b)
    ensures AllDigits(a + b) && PartValue(a + "_" + b) == DigitsValue(a + b)
    decreases |b|
  {
    AllDigitsAppend(a, b);
    var s := a + "_" + b;
    if b == [] {
      assert s[..|s| - 1] == a && a + b == a;
      PartValueDigits(a);
    } else {
      var c := b[..|b| - 1];
      assert forall i :: 0 <= i < |c| ==> c[i] == b[i];
      PartValueUnderscore(a, c);
      assert s[..|s| - 1] == a + "_" + c && s[|s| - 1] == b[|b| - 1];
      assert (a + b)[..|a + b| - 1] == a + c && (a + b)[|a + b| - 1] == b[|b| - 1];
    }
  }

  /** An underscore between digits: `float()` reads the digits without it,
      and `pd.to_numeric` refuses the text. */
  lemma {:induction false} UnderscoreParses(a: string, b: string)
    requires |a| > 0 && |b| > 0 && AllDigits(a) && AllDigits(b)
    ensures PyFloat(a + "_" + b) == Some(DigitsValue(a + b) as real)
    ensures ToNumeric(a + "_" + b) == None
  {
    var s := a + "_" + b;
    Pieces(a, '_', b);
    assert s[0] == a[0] && s[|s| - 1] == b[|b| - 1];
    assert IsDigit(a[0]) && IsDigit(b[|b| - 1]);
    DigitEnds(s, true);
    DigitEnds(s, false);
    forall k | 0 <= k < |s| ensures (IsDigit(s[k]) || k == |a|) && (k == |a| || PartChar(s, k, true))
    {
      if k < |a| { assert s[k] == a[k]; } else if k > |a| { assert s[k] == b[k - |a| - 1]; }
    }
    assert PartChar(s, |a|, true) by { assert s[|a| - 1] == a[|a| - 1]; }
    assert DigitPart(s, true);
    assert !PartChar(s, |a|, false);
    DigitsNoMarksOrPoint(s);
    PlainLiteral(s, true);
    PlainLiteral(s, false);
    PartValueUnderscore(a, b);
  }

  lemma {:induction false} AllDigitsAppend(a: string, b: string)
    requires AllDigits(a) && AllDigits(b)
    ensures AllDigits(a + b)
  {
    forall k | 0 <= k < |a + b| ensures IsDigit((a + b)[k]) {
      if k >= |a| { assert (a + b)[k] == b[k - |a|]; }
    }
  }

  /** Two underscores in a row make no number. */
  lemma {:induction false} DoubleUnderscore(a: string, b: string)
    requires |a| > 0 && |b| > 0 && AllDigits(a) && AllDigits(b)
    ensures PyFloat(a + "__" + b) == None
  {
    var s := a + "__" + b;
    DigitsNoMarks(a);
    DigitsNoMarks(b);
    assert '.' !in s && 'e' !in s && 'E' !in s;
    assert s[0] == a[0] && s[|s| - 1] == b[|b| - 1];
    assert IsDigit(a[0]) && IsDigit(b[|b| - 1]);
    assert s[|a|] == '_' && s[|a| + 1] == '_';
    assert !PartChar(s, |a| + 1, true);
    DigitEnds(s, true);
    PlainLiteral(s, true);
  }

  /** An underscore before the first digit makes no number. */
  lemma {:induction false} LeadingUnderscore(b: string)
    requires |b| > 0 && AllDigits(b)
    ensures PyFloat("_" + b) == None
  {
    var u := "_" + b;
    assert u[0] == '_' && u[|u| - 1] == b[|b| - 1];
    assert !IsSpace(u[0]) && !IsSpace(u[|u| - 1]);
    StripTrimmed(u);
    forall k | 0 <= k < |u| ensures IsDigit(u[k]) || u[k] == '_'
    {
      if k > 0 { assert u[k] == b[k - 1]; }
    }
    DigitsNoMarksOrPoint(u);
    PlainLiteral(u, true);
    assert !IsDigit(u[0]);
  }

  /** Text of digits and underscores has no point and no exponent mark. */
  lemma {:induction false} DigitsNoMarksOrPoint(s: string)
    requires forall i :: 0 <= i < |s| ==> IsDigit(s[i]) || s[i] == '_'
    ensures '.' !in s && 'e' !in s && 'E' !in s
  {
    assert forall k | 0 <= k < |s| :: s[k] != '.' && s[k] != 'e' && s[k] != 'E' by {
      forall k | 0 <= k < |s| ensures s[k] != '.' && s[k] != 'e' && s[k] != 'E' {
        assert IsDigit(s[k]) || s[k] == '_';
      }
    }
  }

  /** Reading back the rendering of an integer gives the integer. */
  lemma {:induction false} IntTextParses(i: int)
    ensures PyFloat(IntText(i)) == Some(i as real)
    ensures ToNumeric(IntText(i)) == Some(i as real)
  {
    var n: nat := if i >= 0 then i else -i;
    NatTextValue(n);
    DigitsTextParses(NatText(n));
  }

  /** A non-empty digit string, with or without a minus, reads as its
      value for `float()` and `pd.to_numeric`. */
  lemma {:induction false} DigitsTextParses(t: string)
    requires |t| > 0 && AllDigits(t)
    ensures PyFloat(t) == Some(DigitsValue(t) as real) && ToNumeric(t) == Some(DigitsValue(t) as real)
    ensures PyFloat("-" + t) == Some(-(DigitsValue(t) as real))
    ensures ToNumeric("-" + t) == Some(-(DigitsValue(t) as real))
  {
    DigitsReads(t, true);
    DigitsReads(t, false);
    NegatedDigitsReads(t, true);
    NegatedDigitsReads(t, false);
  }

  lemma {:induction false} DigitsReads(t: string, underscores: bool)
    requires |t| > 0 && AllDigits(t)
    ensures ParseDecimal(Strip(t), underscores) == Some(DigitsValue(t) as real)
  {
    assert IsDigit(t[0]) && IsDigit(t[|t| - 1]);
    DigitEnds(t, underscores);
    DigitsLiteral(t, underscores);
  }

  lemma {:induction false} NegatedDigitsReads(t: string, underscores: bool)
    requires |t| > 0 && AllDigits(t)
    ensures ParseDecimal(Strip("-" + t), underscores) == Some(-(DigitsValue(t) as real))
  {
    DigitsLiteral(t, underscores);
    NegatedDigits(t, underscores, DigitsValue(t) as real);
  }

  lemma {:induction false} NegatedDigits(t: string, underscores: bool, x: real)
    requires |t| > 0 && IsDigit(t[|t| - 1]) && ParseUnsigned(t, underscores) == Some(x)
    ensures ParseDecimal(Strip("-" + t), underscores) == Some(-x)
  {
    var n := "-" + t;
    assert n[|n| - 1] == t[|t| - 1] && n[1..] == t;
    Negated(n, underscores, x);
  }

  /** A leading minus negates the rest. */
  lemma {:induction false} Negated(s: string, underscores: bool, x: real)
    requires Trimmed(s) && |s| > 0 && s[0] == '-' && ParseUnsigned(s[1..], underscores) == Some(x)
    ensures ParseDecimal(Strip(s), underscores) == Some(-x)
  {
    StripTrimmed(s);
  }
}
