/**
 * The handful of JavaScript value and Array.prototype behaviours the
 * storefront relies on: `undefined`, `findIndex`, `filter`, a summing
 * `reduce`, `slice(0, n)` and the `||` default for strings.
 */
module Js {

  /** A value that may be `undefined` (or `null`, where the code treats both alike). */
  datatype Option<+T> = None | Some(value: T) {
    function GetOr(default: T): T {
      match this
      case Some(v) => v
      case None => default
    }
  }

  /** `s || d` for a string that may be undefined: undefined and "" are falsy. */
  function StrOr(s: Option<string>, d: string): (r: string)
    ensures r == d || (s.Some? && r == s.value)
    ensures r == d <== (s == None || s == Some(""))
  {
    if s.Some? && s.value != "" then s.value else d
  }

  /** `\s` in a regular expression, and what `Number` trims: the WhiteSpace and LineTerminator characters. */
  predicate IsWhitespace(c: char) {
    || c == '\t' || c == '\n' || c == '\U{000B}' || c == '\U{000C}' || c == '\r' || c == ' '
    || c == '\U{00A0}' || c == '\U{1680}' || ('\U{2000}' <= c <= '\U{200A}')
    || c == '\U{2028}' || c == '\U{2029}' || c == '\U{202F}' || c == '\U{205F}'
    || c == '\U{3000}' || c == '\U{FEFF}'
  }

  /** The test `x => x === c`. */
  function IsChar(c: char): char -> bool {
    (x: char) => x == c
  }

  /** `Array.prototype.findIndex`: the first index whose element satisfies `p`, or -1. */
  function FindIndex<T>(s: seq<T>, p: T -> bool): (r: int)
    ensures -1 <= r < |s|
    ensures r == -1 <==> forall i :: 0 <= i < |s| ==> !p(s[i])
    ensures 0 <= r ==> p(s[r]) && forall i :: 0 <= i < r ==> !p(s[i])
  {
    if s == [] then -1
    else if p(s[0]) then 0
    else
      var k := FindIndex(s[1..], p);
      if k == -1 then -1 else k + 1
  }

  /** `Array.prototype.filter`: the elements satisfying `p`, in order. */
  function Filter<T>(s: seq<T>, p: T -> bool): (r: seq<T>)
    ensures |r| <= |s|
    ensures forall i :: 0 <= i < |r| ==> r[i] in s && p(r[i])
    ensures forall i :: 0 <= i < |s| && p(s[i]) ==> s[i] in r
  {
    if s == [] then []
    else if p(s[0]) then [s[0]] + Filter(s[1..], p)
    else Filter(s[1..], p)
  }

  /** Filtering keeps every copy of each element satisfying `p` and no copy of the others. */
  lemma {:induction false} FilterCounts<T>(s: seq<T>, p: T -> bool)
    ensures forall x :: multiset(Filter(s, p))[x] == if p(x) then multiset(s)[x] else 0
  {
    if s != [] {
      FilterCounts(s[1..], p);
      assert s == [s[0]] + s[1..];
    }
  }

  /**
   * `s.reduce((acc, x) => acc + f(x), 0)`. The source folds left to right;
   * integer addition is associative, so folding from the front is the same sum.
   */
  function Sum<T>(s: seq<T>, f: T -> int): int {
    if s == [] then 0 else f(s[0]) + Sum(s[1..], f)
  }

  /** A sum of non-negative values is non-negative. */
  lemma {:induction false} SumNonNegative<T>(s: seq<T>, f: T -> int)
    ensures (forall i :: 0 <= i < |s| ==> f(s[i]) >= 0) ==> Sum(s, f) >= 0
  {
    if s != [] {
      SumNonNegative(s[1..], f);
      if forall i :: 0 <= i < |s| ==> f(s[i]) >= 0 {
        assert forall i :: 0 <= i < |s[1..]| ==> s[1..][i] == s[i + 1];
      }
    }
  }

  /** `s.slice(0, n)` for n >= 0. */
  function Take<T>(s: seq<T>, n: nat): (r: seq<T>)
    ensures |r| == if |s| < n then |s| else n
    ensures r <= s
  {
    if |s| <= n then s else s[..n]
  }

  lemma {:induction false} SumAppend<T>(a: seq<T>, b: seq<T>, f: T -> int)
    ensures Sum(a + b, f) == Sum(a, f) + Sum(b, f)
  {
    if a == [] {
      assert a + b == b;
    } else {
      assert (a + b)[0] == a[0] && (a + b)[1..] == a[1..] + b;
      SumAppend(a[1..], b, f);
    }
  }

  /** Appending one element adds its value to the sum. */
  lemma SumAppendOne<T>(s: seq<T>, x: T, f: T -> int)
    ensures Sum(s + [x], f) == Sum(s, f) + f(x)
  {
    SumAppend(s, [x], f);
    assert [x][1..] == [];
  }

  /** A sequence that differs from another at one position only differs in sum by that element. */
  lemma SumChangedAt<T>(s: seq<T>, t: seq<T>, k: nat, f: T -> int)
    requires |t| == |s| && k < |s|
    requires forall j :: 0 <= j < |s| && j != k ==> t[j] == s[j]
    ensures Sum(t, f) == Sum(s, f) - f(s[k]) + f(t[k])
  {
    assert t == s[k := t[k]];
    SumUpdate(s, k, t[k], f);
  }

  /** A sequence that extends another by one element adds that element's value. */
  lemma SumGrownBy<T>(s: seq<T>, t: seq<T>, f: T -> int)
    requires |t| == |s| + 1 && t[..|s|] == s
    ensures Sum(t, f) == Sum(s, f) + f(t[|s|])
  {
    assert t == s + [t[|s|]];
    SumAppendOne(s, t[|s|], f);
  }

  /** Filtering by a predicate and by its complement splits any sum in two. */
  lemma {:induction false} SumFilterSplit<T>(s: seq<T>, p: T -> bool, q: T -> bool, f: T -> int)
    requires forall x :: q(x) == !p(x)
    ensures Sum(s, f) == Sum(Filter(s, p), f) + Sum(Filter(s, q), f)
  {
    if s != [] {
      SumFilterSplit(s[1..], p, q, f);
      if p(s[0]) {
        assert Filter(s, p) == [s[0]] + Filter(s[1..], p);
        SumAppend([s[0]], Filter(s[1..], p), f);
      } else {
        assert Filter(s, q) == [s[0]] + Filter(s[1..], q);
        SumAppend([s[0]], Filter(s[1..], q), f);
      }
    }
  }

  /** Replacing one element changes the sum by exactly the difference of the two terms. */
  lemma {:induction false} SumUpdate<T>(s: seq<T>, k: nat, x: T, f: T -> int)
    requires k < |s|
    ensures Sum(s[k := x], f) == Sum(s, f) - f(s[k]) + f(x)
  {
    if k == 0 {
      assert s[k := x][1..] == s[1..];
    } else {
      assert s[k := x][1..] == s[1..][k - 1 := x];
      SumUpdate(s[1..], k - 1, x, f);
    }
  }

  /** Filtering with a predicate that every element satisfies changes nothing. */
  lemma {:induction false} FilterKeepsAll<T>(s: seq<T>, p: T -> bool)
    requires forall i :: 0 <= i < |s| ==> p(s[i])
    ensures Filter(s, p) == s
  {
    if s != [] {
      FilterKeepsAll(s[1..], p);
    }
  }

  /** Filtering twice with the same predicate is filtering once. */
  lemma FilterIdempotent<T>(s: seq<T>, p: T -> bool)
    ensures Filter(Filter(s, p), p) == Filter(s, p)
  {
    var r := Filter(s, p);
    forall i | 0 <= i < |r| ensures p(r[i]) {
      assert r[i] in r;
    }
    FilterKeepsAll(r, p);
  }

  /** The elements `filter` keeps keep their relative order: the result embeds in `s`. */
  lemma {:induction false} FilterIsSubsequence<T>(s: seq<T>, p: T -> bool)
    ensures IsSubsequence(Filter(s, p), s)
  {
    if s != [] {
      FilterIsSubsequence(s[1..], p);
      if p(s[0]) {
        assert Filter(s, p)[1..] == Filter(s[1..], p);
      }
    }
  }

  /** `a` is `b` with some elements deleted, order kept. */
  ghost predicate IsSubsequence<T>(a: seq<T>, b: seq<T>)
    decreases |b|
  {
    if a == [] then true
    else if b == [] then false
    else if a[0] == b[0] then IsSubsequence(a[1..], b[1..])
    else IsSubsequence(a, b[1..])
  }
}
