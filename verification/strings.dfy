/** String helpers: joining with and splitting on a separator, searching, infixes. */
module Strings {
  import opened Wrappers

  /** `t` occurs in `s` starting at position `i`. */
  predicate OccursAt(t: string, s: string, i: int) {
    0 <= i <= |s| - |t| && s[i..i + |t|] == t
  }

  /** `t` occurs in `s` at some position. */
  ghost predicate IsInfix(t: string, s: string) {
    exists i :: OccursAt(t, s, i)
  }

  predicate IsPrefix(t: string, s: string) {
    |t| <= |s| && s[..|t|] == t
  }

  /** The elements of `xs` separated by `sep`, as `Vec::join` does. */
  function Join(xs: seq<string>, sep: char): string {
    if |xs| == 0 then ""
    else if |xs| == 1 then xs[0]
    else xs[0] + [sep] + Join(xs[1..], sep)
  }

  /** The pieces of `s` between occurrences of `sep`; always at least one piece. */
  function Split(s: string, sep: char): (r: seq<string>)
    ensures |r| > 0
  {
    if s == [] then [""]
    else
      var rest := Split(s[1..], sep);
      if s[0] == sep then [""] + rest else [[s[0]] + rest[0]] + rest[1..]
  }

  /** The position of the last `c` in `s`, if any. */
  function LastIndex(s: string, c: char): (r: Option<nat>)
    ensures r.Some? ==> r.value < |s| && s[r.value] == c && c !in s[r.value + 1..]
    ensures r.None? ==> c !in s
  {
    if |s| == 0 then None
    else if s[|s| - 1] == c then Some(|s| - 1)
    else
      var r := LastIndex(s[..|s| - 1], c);
      assert s == s[..|s| - 1] + [s[|s| - 1]];
      r
  }

  /** A string without `sep` splits into itself alone. */
  lemma {:induction false} SplitNoSeparator(x: string, sep: char)
    requires sep !in x
    ensures Split(x, sep) == [x]
  {
    if x != [] {
      SplitNoSeparator(x[1..], sep);
      assert [x[0]] + x[1..] == x;
    }
  }

  /** Splitting `x + [sep] + t` peels off `x` when `x` holds no `sep`. */
  lemma {:induction false} SplitPeel(x: string, t: string, sep: char)
    requires sep !in x
    ensures Split(x + [sep] + t, sep) == [x] + Split(t, sep)
  {
    var s := x + [sep] + t;
    if x == [] {
      assert s[1..] == t;
    } else {
      assert s[1..] == x[1..] + [sep] + t;
      SplitPeel(x[1..], t, sep);
      assert [x[0]] + x[1..] == x;
    }
  }

  /** Splitting undoes joining when no piece holds the separator. */
  lemma {:induction false} SplitJoin(xs: seq<string>, sep: char)
    requires |xs| > 0
    requires forall i :: 0 <= i < |xs| ==> sep !in xs[i]
    ensures Split(Join(xs, sep), sep) == xs
  {
    if |xs| == 1 {
      SplitNoSeparator(xs[0], sep);
    } else {
      SplitJoin(xs[1..], sep);
      SplitPeel(xs[0], Join(xs[1..], sep), sep);
      assert [xs[0]] + xs[1..] == xs;
    }
  }

  /** A character absent from every piece and distinct from the separator is absent from the join. */
  lemma {:induction false} JoinAvoids(xs: seq<string>, sep: char, c: char)
    requires c != sep
    requires forall i :: 0 <= i < |xs| ==> c !in xs[i]
    ensures c !in Join(xs, sep)
  {
    if |xs| > 1 {
      JoinAvoids(xs[1..], sep, c);
    }
  }

  /** Every piece occurs in the join. */
  lemma {:induction false} JoinContains(xs: seq<string>, sep: char, k: nat)
    requires k < |xs|
    ensures IsInfix(xs[k], Join(xs, sep))
  {
    var j := Join(xs, sep);
    if |xs| == 1 || k == 0 {
      assert OccursAt(xs[0], j, 0);
    } else {
      JoinContains(xs[1..], sep, k - 1);
      var t := Join(xs[1..], sep);
      var i :| OccursAt(xs[k], t, i);
      var off := |xs[0]| + 1;
      assert j == xs[0] + [sep] + t;
      assert j[off + i..off + i + |xs[k]|] == t[i..i + |xs[k]|];
      assert OccursAt(xs[k], j, off + i);
    }
  }

  /** `LastIndex` finds the separator that precedes a separator-free tail. */
  lemma LastIndexOf(a: string, c: char, b: string)
    requires c !in b
    ensures LastIndex(a + [c] + b, c) == Some(|a|)
  {
    var s := a + [c] + b;
    var r := LastIndex(s, c);
    assert s[|a|] == c;
    assert s[|a| + 1..] == b;
  }

  /** An infix of either part is an infix of the concatenation. */
  lemma InfixAppend(t: string, a: string, b: string)
    ensures IsInfix(t, a) ==> IsInfix(t, a + b)
    ensures IsInfix(t, b) ==> IsInfix(t, a + b)
  {
    if IsInfix(t, a) {
      var i :| OccursAt(t, a, i);
      assert (a + b)[i..i + |t|] == a[i..i + |t|];
      assert OccursAt(t, a + b, i);
    }
    if IsInfix(t, b) {
      var i :| OccursAt(t, b, i);
      assert (a + b)[|a| + i..|a| + i + |t|] == b[i..i + |t|];
      assert OccursAt(t, a + b, |a| + i);
    }
  }

  /** Every string is an infix of itself. */
  lemma InfixSelf(t: string)
    ensures IsInfix(t, t)
  {
    assert OccursAt(t, t, 0);
  }

  /** An infix of an infix is an infix. */
  lemma InfixTrans(t: string, u: string, s: string)
    requires IsInfix(t, u) && IsInfix(u, s)
    ensures IsInfix(t, s)
  {
    var i :| OccursAt(t, u, i);
    var j :| OccursAt(u, s, j);
    forall k | 0 <= k < |t|
      ensures s[j + i + k] == t[k]
    {
      assert s[j..j + |u|][i + k] == u[i + k];
      assert u[i..i + |t|][k] == t[k];
    }
    assert s[j + i..j + i + |t|] == t;
    assert OccursAt(t, s, j + i);
  }

  /** The middle part of a concatenation is an infix of it. */
  lemma InfixAt(a: string, t: string, b: string)
    ensures IsInfix(t, a + t + b)
  {
    var s := a + t + b;
    assert s[|a|..|a| + |t|] == t;
    assert OccursAt(t, s, |a|);
  }
}
