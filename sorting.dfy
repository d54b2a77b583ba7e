/** Python's ordering of strings (code point by code point, a proper prefix first) and the order
    this model gives to the elements of a Python set when it is turned into a list: ascending. */
module Sorting {
  import opened SeqUtil

  /** `a < b` on Python strings. */
  predicate LexLess(a: string, b: string)
    decreases |a|
  {
    if |a| == 0 then |b| > 0
    else if |b| == 0 then false
    else if a[0] != b[0] then a[0] < b[0]
    else LexLess(a[1..], b[1..])
  }

  lemma {:induction false} LexLessIrreflexive(a: string)
    ensures !LexLess(a, a)
    decreases |a|
  {
    if |a| > 0 {
      LexLessIrreflexive(a[1..]);
    }
  }

  lemma {:induction false} LexLessTotal(a: string, b: string)
    ensures a == b || LexLess(a, b) || LexLess(b, a)
    decreases |a|
  {
    if |a| > 0 && |b| > 0 && a[0] == b[0] {
      LexLessTotal(a[1..], b[1..]);
      if a[1..] == b[1..] {
        assert a == [a[0]] + a[1..] && b == [b[0]] + b[1..];
      }
    }
  }

  lemma {:induction false} LexLessTransitive(a: string, b: string, c: string)
    requires LexLess(a, b) && LexLess(b, c)
    ensures LexLess(a, c)
    decreases |a|
  {
    if |a| > 0 && a[0] == b[0] && b[0] == c[0] {
      LexLessTransitive(a[1..], b[1..], c[1..]);
    }
  }

  lemma LexLessAsymmetric(a: string, b: string)
    requires LexLess(a, b)
    ensures !LexLess(b, a)
  {
    if LexLess(b, a) {
      LexLessTransitive(a, b, a);
      LexLessIrreflexive(a);
    }
  }

  /** Ascending: no element is below one before it. */
  predicate Sorted(s: seq<string>)
  {
    forall i, j :: 0 <= i < j < |s| ==> !LexLess(s[j], s[i])
  }

  /** `x` put before the first element of `s` that is not below it. */
  function Insert(x: string, s: seq<string>): (r: seq<string>)
    requires Sorted(s)
    ensures Sorted(r) && multiset(r) == multiset(s) + multiset{x} && |r| == |s| + 1
  {
    if |s| == 0 then [x]
    else if !LexLess(s[0], x) then
      NotBelowHead(x, s);
      [x] + s
    else
      var rest := Insert(x, s[1..]);
      assert s == [s[0]] + s[1..];
      HeadBelowInserted(x, s, rest);
      [s[0]] + rest
  }

  /** An element the head of a sorted list is not below is not below any element of it. */
  lemma NotBelowHead(x: string, s: seq<string>)
    requires Sorted(s) && |s| > 0 && !LexLess(s[0], x)
    ensures forall j :: 0 <= j < |s| ==> !LexLess(s[j], x)
  {
    forall j | 0 <= j < |s|
      ensures !LexLess(s[j], x)
    {
      if LexLess(s[j], x) && s[0] != s[j] {
        LexLessTotal(s[0], s[j]);
        LexLessTransitive(s[0], s[j], x);
      }
    }
  }

  /** The head of a sorted list, below `x`, is below nothing the tail with `x` inserted holds. */
  lemma HeadBelowInserted(x: string, s: seq<string>, rest: seq<string>)
    requires Sorted(s) && |s| > 0 && LexLess(s[0], x)
    requires multiset(rest) == multiset(s[1..]) + multiset{x}
    ensures forall j :: 0 <= j < |rest| ==> !LexLess(rest[j], s[0])
  {
    forall j | 0 <= j < |rest|
      ensures !LexLess(rest[j], s[0])
    {
      assert rest[j] in multiset(rest);
      if rest[j] == x {
        LexLessAsymmetric(s[0], x);
      } else {
        assert rest[j] in s[1..];
        var k :| 0 <= k < |s[1..]| && s[1..][k] == rest[j];
        assert s[k + 1] == rest[j];
      }
    }
  }

  /** Python's `sorted` of a list of strings. */
  function Sort(s: seq<string>): (r: seq<string>)
    ensures Sorted(r) && multiset(r) == multiset(s)
    ensures |r| == |s|
  {
    if |s| == 0 then []
    else
      assert s == s[..|s| - 1] + [s[|s| - 1]];
      Insert(s[|s| - 1], Sort(s[..|s| - 1]))
  }

  /** The list of a set built from `s`: its distinct elements, ascending. */
  /** A prefix of a sorted list without repeats is one too. */
  lemma TakeSortedDistinct(s: seq<string>, n: nat)
    requires Sorted(s) && Distinct(s)
    ensures Sorted(Take(s, n)) && Distinct(Take(s, n))
    ensures forall x :: x in Take(s, n) ==> x in s
  {
  }

  function SetList(s: seq<string>): (r: seq<string>)
    ensures Sorted(r) && Distinct(r)
    ensures forall x :: x in r <==> x in s
  {
    var f := Firsts(s);
    var r := Sort(f);
    assert forall x :: x in r <==> x in f by {
      assert forall x :: x in r <==> x in multiset(r);
    }
    assert Distinct(r) by {
      forall x | x in multiset(r)
        ensures multiset(r)[x] == 1
      {
        DistinctOnce(f, x);
      }
      OnceDistinct(r);
    }
    r
  }

  lemma {:induction false} DistinctOnce(s: seq<string>, x: string)
    requires Distinct(s) && x in s
    ensures multiset(s)[x] == 1
  {
    var init := s[..|s| - 1];
    assert s == init + [s[|s| - 1]];
    if x == s[|s| - 1] {
      assert x !in init;
    } else {
      assert x in init;
      DistinctOnce(init, x);
    }
  }

  lemma {:induction false} OnceDistinct(s: seq<string>)
    requires forall x :: x in multiset(s) ==> multiset(s)[x] == 1
    ensures Distinct(s)
  {
    if |s| > 0 {
      var init := s[..|s| - 1];
      assert s == init + [s[|s| - 1]];
      assert multiset(s) == multiset(init) + multiset{s[|s| - 1]};
      forall x | x in multiset(init)
        ensures multiset(init)[x] == 1
      {
        assert multiset(s)[x] >= multiset(init)[x];
      }
      OnceDistinct(init);
      assert multiset(s)[s[|s| - 1]] == multiset(init)[s[|s| - 1]] + 1;
      assert s[|s| - 1] !in multiset(init);
      forall i | 0 <= i < |s| - 1
        ensures s[i] != s[|s| - 1]
      {
        assert s[i] == init[i] && init[i] in multiset(init);
      }
    }
  }

  /** A set has one ascending list: two sorted lists without repeats holding the same strings are
      the same list. */
  lemma {:induction false} SortedListUnique(a: seq<string>, b: seq<string>)
    requires Sorted(a) && Distinct(a) && Sorted(b) && Distinct(b)
    requires forall x :: x in a <==> x in b
    ensures a == b
    decreases |a|
  {
    if |a| > 0 {
      assert a[0] in b;
    }
    if |b| > 0 {
      assert b[0] in a;
    }
    if |a| > 0 {
      if a[0] != b[0] {
        assert a[0] in b && b[0] in a;
        var i :| 0 <= i < |a| && a[i] == b[0];
        var j :| 0 <= j < |b| && b[j] == a[0];
        LexLessTotal(a[0], b[0]);
        assert false;
      }
      forall x
        ensures x in a[1..] <==> x in b[1..]
      {
        if x in a[1..] {
          var k :| 0 <= k < |a[1..]| && a[1..][k] == x;
          assert a[k + 1] == x && x != a[0];
          assert x in b;
          var m :| 0 <= m < |b| && b[m] == x;
          assert m != 0 && b[1..][m - 1] == x;
        }
        if x in b[1..] {
          var k :| 0 <= k < |b[1..]| && b[1..][k] == x;
          assert b[k + 1] == x && x != b[0];
          assert x in a;
          var m :| 0 <= m < |a| && a[m] == x;
          assert m != 0 && a[1..][m - 1] == x;
        }
      }
      SortedListUnique(a[1..], b[1..]);
      assert a == [a[0]] + a[1..] && b == [b[0]] + b[1..];
    }
  }
}
