/**
  Sequence facts shared by the handlers: the `Array.prototype.filter` the
  server uses for its reads, and duplicate-freedom.
 */
module Seqs {

  /** No element occurs twice. */
  predicate NoDup<T(==)>(s: seq<T>) {
    forall i, j :: 0 <= i < j < |s| ==> s[i] != s[j]
  }

  /** An element found in neither part can go between them without creating a duplicate. */
  lemma NoDupInsert<T>(a: seq<T>, b: seq<T>, x: T)
    requires NoDup(a + b) && x !in a && x !in b
    ensures NoDup(a + [x] + b)
  {
    var r := a + [x] + b;
    forall i, j | 0 <= i < j < |r|
      ensures r[i] != r[j]
    {
      var ab := a + b;
      if i < |a| && j < |a| {
        assert r[i] == ab[i] && r[j] == ab[j];
      } else if i < |a| && j == |a| {
        assert r[i] in a;
      } else if i < |a| {
        assert r[i] == ab[i] && r[j] == ab[j - 1];
      } else if i == |a| {
        assert r[j] == b[j - |a| - 1];
      } else {
        assert r[i] == ab[i - 1] && r[j] == ab[j - 1];
      }
    }
  }

  /** No duplicates means every value occurs at most once. */
  lemma {:induction false} NoDupCounts<T>(s: seq<T>, x: T)
    requires NoDup(s)
    ensures multiset(s)[x] <= 1
  {
    if s != [] {
      assert s == [s[0]] + s[1..];
      assert NoDup(s[1..]) by {
        forall i, j | 0 <= i < j < |s| - 1 ensures s[1..][i] != s[1..][j] {
          assert s[1..][i] == s[i + 1] && s[1..][j] == s[j + 1];
        }
      }
      NoDupCounts(s[1..], x);
      assert s[0] !in s[1..] by {
        forall j | 0 <= j < |s| - 1 ensures s[1..][j] != s[0] {
          assert s[1..][j] == s[j + 1];
        }
      }
    }
  }

  /** A sequence in which every value occurs at most once has no duplicates. */
  lemma {:induction false} CountsNoDup<T>(s: seq<T>)
    requires forall x :: multiset(s)[x] <= 1
    ensures NoDup(s)
  {
    if s != [] {
      assert s == [s[0]] + s[1..];
      assert multiset(s) == multiset([s[0]]) + multiset(s[1..]);
      forall x
        ensures multiset(s[1..])[x] <= 1
      {
        assert multiset(s)[x] == multiset([s[0]])[x] + multiset(s[1..])[x];
      }
      CountsNoDup(s[1..]);
      assert multiset(s[1..])[s[0]] == 0 by {
        assert multiset(s)[s[0]] == 1 + multiset(s[1..])[s[0]];
      }
      forall i, j | 0 <= i < j < |s|
        ensures s[i] != s[j]
      {
        assert s[j] == s[1..][j - 1];
        if i > 0 {
          assert s[i] == s[1..][i - 1];
        }
      }
    }
  }

  /** `r` can be obtained from `s` by deleting elements, keeping the order of the rest. */
  ghost predicate Subsequence<T>(r: seq<T>, s: seq<T>)
    decreases |s|
  {
    if r == [] then true
    else if s == [] then false
    else (r[0] == s[0] && Subsequence(r[1..], s[1..])) || Subsequence(r, s[1..])
  }

  /** The elements of `s` that satisfy `keep`, in their order in `s`. */
  function Filter<T>(s: seq<T>, keep: T -> bool): (r: seq<T>)
    ensures |r| <= |s|
    ensures forall i :: 0 <= i < |r| ==> keep(r[i])
  {
    if s == [] then []
    else (if keep(s[0]) then [s[0]] else []) + Filter(s[1..], keep)
  }

  /** An element is in the result exactly when it is in the input and passes the test. */
  lemma {:induction false} FilterMembers<T>(s: seq<T>, keep: T -> bool, x: T)
    ensures x in Filter(s, keep) <==> x in s && keep(x)
  {
    if s != [] {
      FilterMembers(s[1..], keep, x);
      assert s == [s[0]] + s[1..];
    }
  }

  /** Filtering an element followed by the rest: the element if it passes, then the filtered rest. */
  lemma FilterCons<T>(x: T, s: seq<T>, keep: T -> bool)
    ensures Filter([x] + s, keep) == (if keep(x) then [x] else []) + Filter(s, keep)
  {
    assert ([x] + s)[1..] == s;
  }

  /** A kept element leads the result of filtering it followed by anything. */
  lemma FilterKeptHead<T>(x: T, s: seq<T>, keep: T -> bool)
    requires keep(x)
    ensures Filter([x] + s, keep) != [] && Filter([x] + s, keep)[0] == x
  {
    FilterCons(x, s, keep);
  }

  /** Sequences with a common head that filter alike also filter alike without it. */
  lemma FilterDropHead<T>(x: T, s1: seq<T>, s2: seq<T>, keep: T -> bool)
    requires Filter([x] + s1, keep) == Filter([x] + s2, keep)
    ensures Filter(s1, keep) == Filter(s2, keep)
  {
    FilterCons(x, s1, keep);
    FilterCons(x, s2, keep);
    if keep(x) {
      assert Filter(s1, keep) == Filter([x] + s1, keep)[1..];
      assert Filter(s2, keep) == Filter([x] + s2, keep)[1..];
    }
  }

  /** Two adjacent elements that are not both kept can trade places without changing the result. */
  lemma FilterSwap<T>(x: T, y: T, s: seq<T>, keep: T -> bool)
    requires !(keep(x) && keep(y))
    ensures Filter([y] + ([x] + s), keep) == Filter([x] + ([y] + s), keep)
  {
    FilterCons(y, [x] + s, keep);
    FilterCons(x, s, keep);
    FilterCons(x, [y] + s, keep);
    FilterCons(y, s, keep);
  }

  /** Filtering a concatenation filters each part. */
  lemma {:induction false} FilterAppend<T>(a: seq<T>, b: seq<T>, keep: T -> bool)
    ensures Filter(a + b, keep) == Filter(a, keep) + Filter(b, keep)
  {
    if a == [] {
      assert a + b == b;
    } else {
      assert (a + b)[1..] == a[1..] + b;
      FilterAppend(a[1..], b, keep);
    }
  }

  /** Each kept element occurs in the result as often as in the input; no other element occurs. */
  lemma {:induction false} FilterCount<T>(s: seq<T>, keep: T -> bool, x: T)
    ensures multiset(Filter(s, keep))[x] == if keep(x) then multiset(s)[x] else 0
  {
    if s != [] {
      FilterCount(s[1..], keep, x);
      assert s == [s[0]] + s[1..];
    }
  }

  /** The result keeps the input's order. */
  lemma {:induction false} FilterSubsequence<T>(s: seq<T>, keep: T -> bool)
    ensures Subsequence(Filter(s, keep), s)
  {
    if s != [] {
      FilterSubsequence(s[1..], keep);
      if keep(s[0]) {
        assert Filter(s, keep) == [s[0]] + Filter(s[1..], keep);
      } else {
        assert Filter(s, keep) == Filter(s[1..], keep);
      }
    }
  }

  /** The elements of `s` in the opposite order. */
  function Reverse<T>(s: seq<T>): (r: seq<T>)
    ensures |r| == |s|
  {
    if s == [] then [] else Reverse(s[1..]) + [s[0]]
  }

  /** Filtering with a test that holds everywhere on `s` returns `s` itself. */
  lemma {:induction false} FilterAll<T>(s: seq<T>, keep: T -> bool)
    requires forall i :: 0 <= i < |s| ==> keep(s[i])
    ensures Filter(s, keep) == s
  {
    if s != [] {
      FilterAll(s[1..], keep);
    }
  }
}
