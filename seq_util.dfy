/** Generic sequence helpers. */
module SeqUtil {
  predicate Distinct<T(==)>(s: seq<T>)
  {
    forall i, j :: 0 <= i < j < |s| ==> s[i] != s[j]
  }

  /** The elements of `s` that satisfy `p`, in order. */
  function Filter<T(!new)>(s: seq<T>, p: T -> bool): (r: seq<T>)
    ensures |r| <= |s|
    ensures forall x :: x in r <==> x in s && p(x)
  {
    if |s| == 0 then []
    else Filter(s[..|s| - 1], p) + (if p(s[|s| - 1]) then [s[|s| - 1]] else [])
  }

  lemma FilterSnoc<T(!new)>(s: seq<T>, x: T, p: T -> bool)
    ensures Filter(s + [x], p) == Filter(s, p) + if p(x) then [x] else []
  {
    assert (s + [x])[..|s|] == s;
  }

  /** Filtering one element more of `s`. */
  lemma FilterNext<T(!new)>(s: seq<T>, i: nat, p: T -> bool)
    requires i < |s|
    ensures Filter(s[..i + 1], p) == Filter(s[..i], p) + if p(s[i]) then [s[i]] else []
  {
    assert s[..i + 1][..i] == s[..i];
  }

  /** Filtering by a predicate every element satisfies keeps the whole list. */
  /** Filtering one element more of `s`, which passes. */
  lemma FilterKeep<T(!new)>(s: seq<T>, i: nat, p: T -> bool)
    requires i < |s| && p(s[i])
    ensures Filter(s[..i + 1], p) == Filter(s[..i], p) + [s[i]]
  {
    assert s[..i + 1][..i] == s[..i];
  }

  lemma FilterAll<T(!new)>(s: seq<T>, p: T -> bool)
    requires forall x :: x in s ==> p(x)
    ensures Filter(s, p) == s
  {
    FilterAllUpTo(s, p, |s|);
    assert s[..|s|] == s;
  }

  /** `FilterAll` on the prefixes of `s`. */
  lemma {:induction false} FilterAllUpTo<T(!new)>(s: seq<T>, p: T -> bool, i: nat)
    requires i <= |s| && forall x :: x in s ==> p(x)
    ensures Filter(s[..i], p) == s[..i]
  {
    if i > 0 {
      FilterAllUpTo(s, p, i - 1);
      assert s[i - 1] in s;
      FilterKeepAll(s, i - 1, p);
    }
  }

  lemma FilterKeepAll<T(!new)>(s: seq<T>, i: nat, p: T -> bool)
    requires i < |s| && p(s[i]) && Filter(s[..i], p) == s[..i]
    ensures Filter(s[..i + 1], p) == s[..i + 1]
  {
    FilterKeep(s, i, p);
    PrefixSnoc(s, i);
  }

  lemma PrefixSnoc<T>(s: seq<T>, i: nat)
    requires i < |s|
    ensures s[..i] + [s[i]] == s[..i + 1]
  {
  }

  lemma SuffixCons<T>(s: seq<T>, i: nat)
    requires i < |s|
    ensures s[i..] == [s[i]] + s[i + 1..]
  {
  }

  lemma {:induction false} FilterAppend<T(!new)>(a: seq<T>, b: seq<T>, p: T -> bool)
    ensures Filter(a + b, p) == Filter(a, p) + Filter(b, p)
    decreases |b|
  {
    if |b| > 0 {
      var init, last := b[..|b| - 1], b[|b| - 1];
      var tail := if p(last) then [last] else [];
      FilterAppend(a, init, p);
      assert (a + b)[..|a + b| - 1] == a + init;
      assert Filter(a + b, p) == Filter(a + init, p) + tail;
      assert Filter(b, p) == Filter(init, p) + tail;
      assert (Filter(a, p) + Filter(init, p)) + tail == Filter(a, p) + (Filter(init, p) + tail);
    } else {
      assert a + b == a;
    }
  }

  function Map<T, U>(s: seq<T>, f: T -> U): (r: seq<U>)
    ensures |r| == |s| && forall k :: 0 <= k < |s| ==> r[k] == f(s[k])
  {
    seq(|s|, k requires 0 <= k < |s| => f(s[k]))
  }

  /** Every element of `s` is mapped into `Map(s, f)`, and every element there comes from one. */
  lemma MapHas<T, U>(s: seq<T>, f: T -> U)
    ensures forall x :: x in s ==> f(x) in Map(s, f)
    ensures forall y :: y in Map(s, f) ==> exists x :: x in s && y == f(x)
  {
    var r := Map(s, f);
    forall x | x in s
      ensures f(x) in r
    {
      var k :| 0 <= k < |s| && s[k] == x;
      assert r[k] == f(x);
    }
    forall y | y in r
      ensures exists x :: x in s && y == f(x)
    {
      var k :| 0 <= k < |r| && r[k] == y;
      assert s[k] in s;
    }
  }

  function Take<T>(s: seq<T>, n: nat): (r: seq<T>)
    ensures |r| == if n < |s| then n else |s|
    ensures r == s[..|r|]
  {
    if n < |s| then s[..n] else s
  }

  /** The distinct elements of `s` in order of first appearance: the key order of a Python dict
      filled from `s`. */
  function Firsts<T(==,!new)>(s: seq<T>): (r: seq<T>)
    ensures Distinct(r)
    ensures forall x :: x in r <==> x in s
  {
    if |s| == 0 then []
    else
      var r := Firsts(s[..|s| - 1]);
      assert forall x :: x in s <==> x in s[..|s| - 1] || x == s[|s| - 1];
      if s[|s| - 1] in r then r else r + [s[|s| - 1]]
  }
}
