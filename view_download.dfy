/** Downloading the configured dashboard views into one workbook: each view
    that fetches becomes a sheet, named after the view and kept unique with
    a numeric suffix. */
module ViewDownload {
  import opened Wrappers
  import opened Strings
  import opened Ordering
  import opened Cells

  /** Lines 13-27: the views, in download order. */
  const Views: seq<string> := [
    "Main_Combo", "Stragglers", "Basin_Crew_Count", "PnL_CAN_GL", "GL_Basin_Pivot", "Project_VM",
    "Transload", "Unassigned_Rev_CA", "Unalloc_Costs", "FCAST", "Project_List"]

  /** Excel's limit on the length of a sheet name. */
  const MaxTitle: nat := 31

  datatype Sheet = Sheet(name: string, rows: Grid)

  function Names(sheets: seq<Sheet>): (ns: seq<string>)
    ensures |ns| == |sheets| && forall k :: 0 <= k < |sheets| ==> ns[k] == sheets[k].name
  {
    seq(|sheets|, k requires 0 <= k < |sheets| => sheets[k].name)
  }

  /** `view_name[:31]`. */
  function BaseName(view: string): (r: string)
    ensures |r| <= MaxTitle
    ensures |view| <= MaxTitle ==> r == view
    ensures r == view[..|r|]
  {
    if |view| <= MaxTitle then view else view[..MaxTitle]
  }

  /** `f"{orig}_{count}"`. */
  function Suffixed(orig: string, k: nat): string {
    orig + "_" + NatText(k)
  }

  /** The name tried on pass `t` of the loop: the base name, then the
      suffixes 1, 2, ... */
  function Candidate(orig: string, t: nat): string {
    if t == 0 then orig else Suffixed(orig, t)
  }

  /** Different passes try different names. */
  lemma CandidatesDiffer(orig: string, s: nat, t: nat)
    requires s != t
    ensures Candidate(orig, s) != Candidate(orig, t)
  {
    if s > 0 && t > 0 {
      var a, b := Candidate(orig, s), Candidate(orig, t);
      if a == b {
        assert NatText(s) == a[|orig| + 1..] && NatText(t) == b[|orig| + 1..];
        NatTextInjective(s, t);
      }
    }
  }

  /** `name` is the base name itself or the base name, an underscore and
      a decimal suffix. */
  predicate NamedAfter(view: string, name: string) {
    var b := BaseName(view);
    name == b || (|name| > |b| + 1 && name[..|b| + 1] == b + "_" && AllDigits(name[|b| + 1..]))
  }

  /** No earlier pass than `before` tried `s`. */
  predicate Untried(orig: string, before: nat, s: string) {
    forall t: nat :: t < before ==> s != Candidate(orig, t)
  }

  /** Lines 46-51: the base name when it is free, otherwise the base name
      with the first suffix `_1`, `_2`, ... that no sheet has yet.  A
      suffixed name is not truncated again. */
  method UniqueName(names: seq<string>, view: string) returns (name: string)
    ensures name !in names
    ensures BaseName(view) !in names ==> name == BaseName(view)
    ensures BaseName(view) in names ==>
      exists k: nat :: k >= 1 && name == Suffixed(BaseName(view), k)
        && forall j: nat :: 1 <= j < k ==> Suffixed(BaseName(view), j) in names
  {
    var orig := BaseName(view);
    name := orig;
    var count: nat := 1;
    ghost var rest := set s | s in names;
    while name in names
      invariant count >= 1 && name == Candidate(orig, count - 1)
      invariant forall t: nat :: t < count - 1 ==> Candidate(orig, t) in names
      invariant rest == set s | s in names && Untried(orig, count - 1, s)
      decreases |rest|
    {
      forall t: nat | t < count - 1
        ensures name != Candidate(orig, t)
      {
        CandidatesDiffer(orig, count - 1, t);
      }
      assert name in rest;
      ghost var next := set s | s in names && Untried(orig, count, s);
      assert next == rest - {name};
      name := Suffixed(orig, count);
      count := count + 1;
      rest := next;
    }
    if orig in names {
      assert Candidate(orig, 0) in names;
      assert count > 1;
      forall j: nat | 1 <= j < count - 1
        ensures Suffixed(orig, j) in names
      {
        assert Candidate(orig, j) in names;
      }
    }
  }

  lemma UniqueNameShape(names: seq<string>, view: string, name: string)
    requires name == BaseName(view) || exists k: nat :: k >= 1 && name == Suffixed(BaseName(view), k)
    ensures NamedAfter(view, name)
  {
    if name != BaseName(view) {
      var k: nat :| k >= 1 && name == Suffixed(BaseName(view), k);
      var b := BaseName(view);
      assert name[..|b| + 1] == b + "_" && name[|b| + 1..] == NatText(k);
    }
  }

  /** The views whose fetch succeeded, in order. */
  function SheetViews(views: seq<string>, fetched: seq<Option<Grid>>): (r: seq<string>)
    requires |fetched| == |views|
    ensures |r| <= |views|
  {
    if views == [] then []
    else
      var n := |views| - 1;
      SheetViews(views[..n], fetched[..n]) + if fetched[n].Some? then [views[n]] else []
  }

  /** The rows of the fetches that succeeded, in order. */
  function FetchedRows(fetched: seq<Option<Grid>>): (r: seq<Grid>)
    ensures |r| <= |fetched|
  {
    if fetched == [] then []
    else
      var n := |fetched| - 1;
      FetchedRows(fetched[..n]) + if fetched[n].Some? then [fetched[n].value] else []
  }

  lemma {:induction false} SheetViewsLength(views: seq<string>, fetched: seq<Option<Grid>>)
    requires |fetched| == |views|
    ensures |SheetViews(views, fetched)| == |FetchedRows(fetched)|
  {
    if views != [] {
      var n := |views| - 1;
      SheetViewsLength(views[..n], fetched[..n]);
    }
  }

  /** Lines 44-70, with the fetch of view `views[i]` given as `fetched[i]`
      (`None` for a request or parse that raised): every view gets a fresh
      name; a failed fetch creates no sheet and the loop goes on. */
  method DownloadViews(views: seq<string>, fetched: seq<Option<Grid>>) returns (sheets: seq<Sheet>)
    requires |fetched| == |views|
    ensures Distinct(Names(sheets))
    ensures |sheets| == |SheetViews(views, fetched)| == |FetchedRows(fetched)|
    ensures forall k :: 0 <= k < |sheets| ==>
      sheets[k].rows == FetchedRows(fetched)[k] && NamedAfter(SheetViews(views, fetched)[k], sheets[k].name)
    ensures Distinct(BaseNames(views)) ==>
      forall k :: 0 <= k < |sheets| ==> sheets[k].name == BaseName(SheetViews(views, fetched)[k])
  {
    sheets := [];
    var i := 0;
    ghost var sv: seq<string> := [];
    ghost var fr: seq<Grid> := [];
    while i < |views|
      invariant 0 <= i <= |views|
      invariant sv == SheetViews(views[..i], fetched[..i]) && fr == FetchedRows(fetched[..i])
      invariant Downloaded(views, i, sheets, sv, fr)
    {
      var names := Names(sheets);
      var name := UniqueName(names, views[i]);
      UniqueNameShape(names, views[i], name);
      DownloadStep(views, fetched, i);
      if fetched[i].Some? {
        var rows := fetched[i].value;
        Appended(views, i, sheets, sv, fr, name, rows);
        sheets := sheets + [Sheet(name, rows)];
        sv, fr := sv + [views[i]], fr + [rows];
      } else {
        Skipped(views, i, sheets, sv, fr);
      }
      i := i + 1;
    }
    assert views[..i] == views && fetched[..i] == fetched;
  }

  /** The loop invariant: sheets are named distinctly, after the views they
      came from (taken from the first `i`), and hold the fetched rows. */
  ghost predicate Downloaded(views: seq<string>, i: int, sheets: seq<Sheet>, sv: seq<string>, fr: seq<Grid>)
    requires 0 <= i <= |views|
  {
    && |sheets| == |sv| == |fr|
    && Distinct(Names(sheets))
    && (forall k :: 0 <= k < |sheets| ==> sheets[k].rows == fr[k] && NamedAfter(sv[k], sheets[k].name))
    && (forall k :: 0 <= k < |sheets| ==> sv[k] in views[..i])
    && (Distinct(BaseNames(views)) ==> forall k :: 0 <= k < |sheets| ==> sheets[k].name == BaseName(sv[k]))
  }

  lemma Appended(views: seq<string>, i: int, sheets: seq<Sheet>, sv: seq<string>, fr: seq<Grid>,
                 name: string, rows: Grid)
    requires 0 <= i < |views| && Downloaded(views, i, sheets, sv, fr)
    requires name !in Names(sheets) && NamedAfter(views[i], name)
    requires BaseName(views[i]) !in Names(sheets) ==> name == BaseName(views[i])
    ensures Downloaded(views, i + 1, sheets + [Sheet(name, rows)], sv + [views[i]], fr + [rows])
  {
    var sheets', sv' := sheets + [Sheet(name, rows)], sv + [views[i]];
    assert Names(sheets') == Names(sheets) + [name];
    assert views[..i + 1] == views[..i] + [views[i]];
    if Distinct(BaseNames(views)) {
      BaseNameFree(views, i, sv, Names(sheets));
    }
  }

  lemma Skipped(views: seq<string>, i: int, sheets: seq<Sheet>, sv: seq<string>, fr: seq<Grid>)
    requires 0 <= i < |views| && Downloaded(views, i, sheets, sv, fr)
    ensures Downloaded(views, i + 1, sheets, sv, fr)
  {
    assert views[..i + 1] == views[..i] + [views[i]];
  }

  lemma DownloadStep(views: seq<string>, fetched: seq<Option<Grid>>, i: int)
    requires |fetched| == |views| && 0 <= i < |views|
    ensures SheetViews(views[..i + 1], fetched[..i + 1])
      == SheetViews(views[..i], fetched[..i]) + if fetched[i].Some? then [views[i]] else []
    ensures FetchedRows(fetched[..i + 1])
      == FetchedRows(fetched[..i]) + if fetched[i].Some? then [fetched[i].value] else []
  {
    assert views[..i + 1][..i] == views[..i] && fetched[..i + 1][..i] == fetched[..i];
  }

  function BaseNames(views: seq<string>): (bs: seq<string>)
    ensures |bs| == |views| && forall k :: 0 <= k < |views| ==> bs[k] == BaseName(views[k])
  {
    seq(|views|, k requires 0 <= k < |views| => BaseName(views[k]))
  }

  /** With distinct base names, the base name of view `i` is still free when
      the sheets so far are named exactly after earlier views. */
  lemma BaseNameFree(views: seq<string>, i: int, sv: seq<string>, names: seq<string>)
    requires 0 <= i < |views| && Distinct(BaseNames(views)) && |names| == |sv|
    requires forall k :: 0 <= k < |sv| ==> sv[k] in views[..i] && names[k] == BaseName(sv[k])
    ensures BaseName(views[i]) !in names
  {
  }

  /** The configured views all fit the sheet-name limit and are distinct, so
      each downloaded sheet is named exactly after its view. */
  lemma ConfiguredViewsKeepTheirNames()
    ensures Distinct(BaseNames(Views))
  {
    forall k | 0 <= k < |Views|
      ensures BaseNames(Views)[k] == Views[k]
    {
      assert |Views[k]| <= MaxTitle;
    }
    assert BaseNames(Views) == Views;
  }
}
