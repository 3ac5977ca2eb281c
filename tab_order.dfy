/** The last step of the "P. VM - Adjustments" workbook builder: the tabs
    are stably sorted so that the six summary and adjustment tabs come
    first, in a fixed order, followed by every other tab as it was. */
module TabOrder {
  import opened Wrappers
  import opened Seqs

  /** The tabs put first, in this order. */
  const Desired: seq<string> := [
    "P. VM - All USD", "P. VM - Current", "P. VM - Previous", "P. VM - Unalloc",
    "P. VM - Unass", "P. VM - Adjustments"]

  /** The sort key of a tab: its place in `Desired`, or `len(desired)`. */
  function TabKey(title: string): (k: nat)
    ensures k <= |Desired|
    ensures k < |Desired| <==> title in Desired
    ensures k < |Desired| ==> Desired[k] == title
  {
    match IndexOf(Desired, title)
    case Some(i) => i
    case None => |Desired|
  }

  /** The tabs with key `v`, in their original order. */
  function WithKey(ts: seq<string>, key: string -> nat, v: nat): seq<string> {
    if ts == [] then []
    else
      var n := |ts| - 1;
      WithKey(ts[..n], key, v) + (if key(ts[n]) == v then [ts[n]] else [])
  }

  /** The tabs with keys `v` to `top`, grouped by key. */
  function FromKey(ts: seq<string>, key: string -> nat, top: nat, v: nat): seq<string>
    decreases top + 1 - v
  {
    if v > top then [] else WithKey(ts, key, v) + FromKey(ts, key, top, v + 1)
  }

  /** `wb._sheets.sort(key=...)` (lines 497-500): a stable sort by key is
      the groups of equal keys, in key order, each in its original order. */
  function Reordered(ts: seq<string>): seq<string> {
    FromKey(ts, TabKey, |Desired|, 0)
  }

  ghost predicate Bounded(key: string -> nat, top: nat) {
    forall t :: key(t) <= top
  }

  predicate KeysFrom(s: seq<string>, key: string -> nat, v: nat) {
    forall i :: 0 <= i < |s| ==> key(s[i]) >= v
  }

  predicate KeysSorted(s: seq<string>, key: string -> nat) {
    forall i, j :: 0 <= i < j < |s| ==> key(s[i]) <= key(s[j])
  }

  lemma {:induction false} WithKeyAppend(a: seq<string>, b: seq<string>, key: string -> nat, v: nat)
    ensures WithKey(a + b, key, v) == WithKey(a, key, v) + WithKey(b, key, v)
    decreases |b|
  {
    if b == [] {
      assert a + b == a;
    } else {
      var n := |b| - 1;
      assert (a + b)[..|a + b| - 1] == a + b[..n];
      assert (a + b)[|a + b| - 1] == b[n];
      WithKeyAppend(a, b[..n], key, v);
    }
  }

  /** Within a group, only that group's key occurs. */
  lemma {:induction false} WithKeyOnly(ts: seq<string>, key: string -> nat, v: nat, u: nat)
    ensures WithKey(WithKey(ts, key, u), key, v) == if u == v then WithKey(ts, key, v) else []
  {
    if ts != [] {
      var n := |ts| - 1;
      WithKeyOnly(ts[..n], key, v, u);
      var tail := if key(ts[n]) == u then [ts[n]] else [];
      WithKeyAppend(WithKey(ts[..n], key, u), tail, key, v);
      if tail != [] {
        assert WithKey(tail, key, v) == WithKey([], key, v) + (if key(ts[n]) == v then [ts[n]] else []);
      }
    }
  }

  /** Every tab of a group has the group's key. */
  lemma {:induction false} WithKeyKeys(ts: seq<string>, key: string -> nat, v: nat)
    ensures forall i :: 0 <= i < |WithKey(ts, key, v)| ==> key(WithKey(ts, key, v)[i]) == v
  {
    if ts != [] {
      WithKeyKeys(ts[..|ts| - 1], key, v);
    }
  }

  /** A key above every tab's has an empty group. */
  lemma {:induction false} WithKeyEmpty(ts: seq<string>, key: string -> nat, top: nat, u: nat)
    requires Bounded(key, top) && u > top
    ensures WithKey(ts, key, u) == []
  {
    if ts != [] {
      WithKeyEmpty(ts[..|ts| - 1], key, top, u);
      assert key(ts[|ts| - 1]) <= top;
    }
  }

  /** The tabs with key `v` or more, in original order. */
  function AtLeast(ts: seq<string>, key: string -> nat, v: nat): seq<string> {
    if ts == [] then []
    else
      var n := |ts| - 1;
      AtLeast(ts[..n], key, v) + (if key(ts[n]) >= v then [ts[n]] else [])
  }

  lemma {:induction false} AtLeastNone(ts: seq<string>, key: string -> nat, top: nat, v: nat)
    requires Bounded(key, top) && v > top
    ensures AtLeast(ts, key, v) == []
  {
    if ts != [] {
      AtLeastNone(ts[..|ts| - 1], key, top, v);
      assert key(ts[|ts| - 1]) <= top;
    }
  }

  lemma {:induction false} AtLeastAll(ts: seq<string>, key: string -> nat)
    ensures AtLeast(ts, key, 0) == ts
  {
    if ts != [] {
      var n := |ts| - 1;
      AtLeastAll(ts[..n], key);
      assert ts == ts[..n] + [ts[n]];
    }
  }

  /** The tabs of key `v` and up are those of key `v` and those above. */
  lemma {:induction false} AtLeastSplit(ts: seq<string>, key: string -> nat, v: nat)
    ensures multiset(AtLeast(ts, key, v)) == multiset(WithKey(ts, key, v)) + multiset(AtLeast(ts, key, v + 1))
  {
    if ts != [] {
      AtLeastSplit(ts[..|ts| - 1], key, v);
    }
  }

  /** `FromKey(ts, key, top, v)` holds the tabs of key `v` and up, each as
      often as `ts` does. */
  lemma {:induction false} FromKeyCount(ts: seq<string>, key: string -> nat, top: nat, v: nat)
    requires Bounded(key, top)
    ensures multiset(FromKey(ts, key, top, v)) == multiset(AtLeast(ts, key, v))
    decreases top + 1 - v
  {
    if v > top {
      AtLeastNone(ts, key, top, v);
    } else {
      FromKeyCount(ts, key, top, v + 1);
      AtLeastSplit(ts, key, v);
    }
  }

  /** The reordered tabs are the same tabs, each as often as before. */
  lemma ReorderedPermutation(ts: seq<string>)
    ensures multiset(Reordered(ts)) == multiset(ts)
  {
    FromKeyCount(ts, TabKey, |Desired|, 0);
    AtLeastAll(ts, TabKey);
  }

  /** A group of key `v` before a sorted run of keys above `v` is sorted. */
  lemma SortedConcat(w: seq<string>, rest: seq<string>, key: string -> nat, v: nat)
    requires forall i :: 0 <= i < |w| ==> key(w[i]) == v
    requires KeysFrom(rest, key, v + 1) && KeysSorted(rest, key)
    ensures KeysFrom(w + rest, key, v) && KeysSorted(w + rest, key)
  {
    var r := w + rest;
    forall i, j | 0 <= i < j < |r|
      ensures key(r[i]) <= key(r[j])
    {
      if j >= |w| {
        assert r[j] == rest[j - |w|];
        if i >= |w| {
          assert r[i] == rest[i - |w|];
        }
      }
    }
    forall i | 0 <= i < |r|
      ensures key(r[i]) >= v
    {
      if i >= |w| {
        assert r[i] == rest[i - |w|];
      }
    }
  }

  /** Keys never decrease along `FromKey(ts, key, top, v)`, and none is
      below `v`. */
  lemma {:induction false} FromKeySorted(ts: seq<string>, key: string -> nat, top: nat, v: nat)
    ensures KeysFrom(FromKey(ts, key, top, v), key, v) && KeysSorted(FromKey(ts, key, top, v), key)
    decreases top + 1 - v
  {
    if v <= top {
      FromKeySorted(ts, key, top, v + 1);
      WithKeyKeys(ts, key, v);
      SortedConcat(WithKey(ts, key, v), FromKey(ts, key, top, v + 1), key, v);
    }
  }

  /** The desired tabs come first, in desired order, then all others. */
  lemma ReorderedSorted(ts: seq<string>)
    ensures forall i, j :: 0 <= i < j < |Reordered(ts)| ==>
      TabKey(Reordered(ts)[i]) <= TabKey(Reordered(ts)[j])
  {
    FromKeySorted(ts, TabKey, |Desired|, 0);
  }

  /** The group of key `u` of `FromKey(ts, key, top, v)` is that of `ts`
      when `v <= u <= top`, and empty otherwise. */
  lemma {:induction false} FromKeyGroups(ts: seq<string>, key: string -> nat, top: nat, v: nat, u: nat)
    ensures WithKey(FromKey(ts, key, top, v), key, u) == if v <= u <= top then WithKey(ts, key, u) else []
    decreases top + 1 - v
  {
    if v <= top {
      var w, rest := WithKey(ts, key, v), FromKey(ts, key, top, v + 1);
      FromKeyGroups(ts, key, top, v + 1, u);
      WithKeyAppend(w, rest, key, u);
      WithKeyOnly(ts, key, u, v);
      if u == v {
        assert WithKey(ts, key, u) + [] == WithKey(ts, key, u);
      } else {
        assert WithKey(w, key, u) == [];
      }
    }
  }

  /** The sort is stable: tabs of equal key keep their relative order. */
  lemma ReorderedStable(ts: seq<string>, u: nat)
    ensures WithKey(Reordered(ts), TabKey, u) == WithKey(ts, TabKey, u)
  {
    FromKeyGroups(ts, TabKey, |Desired|, 0, u);
    if u > |Desired| {
      WithKeyEmpty(ts, TabKey, |Desired|, u);
    }
  }

  /** One pass of the sort: the tabs of key `v`, in order. */
  method Group(ts: seq<string>, v: nat) returns (part: seq<string>)
    ensures part == WithKey(ts, TabKey, v)
  {
    part := [];
    for i := 0 to |ts|
      invariant part == WithKey(ts[..i], TabKey, v)
    {
      assert ts[..i + 1][..i] == ts[..i];
      if TabKey(ts[i]) == v {
        part := part + [ts[i]];
      }
    }
    assert ts[..|ts|] == ts;
  }

  /** The groups laid end to end, key by key. */
  method Gather(ts: seq<string>) returns (out: seq<string>)
    ensures out == Reordered(ts)
  {
    out := [];
    var v: nat := 0;
    while v <= |Desired|
      invariant out + FromKey(ts, TabKey, |Desired|, v) == Reordered(ts)
      decreases |Desired| + 1 - v
    {
      var part := Group(ts, v);
      assert FromKey(ts, TabKey, |Desired|, v) == part + FromKey(ts, TabKey, |Desired|, v + 1);
      ConcatAssoc(out, part, FromKey(ts, TabKey, |Desired|, v + 1));
      out := out + part;
      v := v + 1;
    }
    assert out + [] == out;
  }

  /** Copies `out` over the array. */
  method WriteBack(tabs: array<string>, out: seq<string>)
    requires |out| == tabs.Length
    modifies tabs
    ensures tabs[..] == out
  {
    for i := 0 to tabs.Length
      invariant tabs[..i] == out[..i]
    {
      tabs[i] := out[i];
      assert tabs[..i + 1] == out[..i + 1];
    }
    assert tabs[..] == tabs[..tabs.Length];
    assert out == out[..|out|];
  }

  /** Reorders the workbook's tab list in place. */
  method ReorderTabs(tabs: array<string>)
    modifies tabs
    ensures tabs[..] == Reordered(old(tabs[..]))
  {
    var out := Gather(tabs[..]);
    ReorderedPermutation(tabs[..]);
    assert |out| == |multiset(out)| == |multiset(tabs[..])| == tabs.Length;
    WriteBack(tabs, out);
  }
}
