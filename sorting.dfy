/** Filtering, distinct keys and stable sorting of sequences: what the
    views ask of the database with `filter`, `values(...).annotate(...)` and
    `order_by`, over in-memory sequences. */
module Sorting {

  /** The elements of `s` that satisfy `keep`, in their order (`filter`). */
  function Where<T>(s: seq<T>, keep: T -> bool): (r: seq<T>)
    ensures |r| <= |s|
    ensures forall i :: 0 <= i < |r| ==> r[i] in s && keep(r[i])
    ensures forall i :: 0 <= i < |s| && keep(s[i]) ==> s[i] in r
    decreases |s|
  {
    if s == [] then []
    else Where(s[..|s| - 1], keep) + (if keep(s[|s| - 1]) then [s[|s| - 1]] else [])
  }

  /** Filtering twice is filtering once by both conditions. */
  lemma {:induction false} WhereWhere<T>(s: seq<T>, a: T -> bool, b: T -> bool, c: T -> bool)
    requires forall x :: c(x) == (a(x) && b(x))
    ensures Where(Where(s, a), b) == Where(s, c)
    decreases |s|
  {
    if s != [] {
      var p := s[..|s| - 1];
      WhereWhere(p, a, b, c);
      var w := Where(p, a);
      if a(s[|s| - 1]) {
        assert Where(s, a) == w + [s[|s| - 1]];
        assert (w + [s[|s| - 1]])[..|w|] == w;
      } else {
        assert Where(s, a) == w;
      }
    }
  }

  /** Filtering depends only on which elements the condition accepts. */
  lemma {:induction false} WhereSame<T>(s: seq<T>, a: T -> bool, b: T -> bool)
    requires forall x :: a(x) == b(x)
    ensures Where(s, a) == Where(s, b)
    decreases |s|
  {
    if s != [] {
      WhereSame(s[..|s| - 1], a, b);
    }
  }

  /** A condition every element meets keeps the whole sequence. */
  lemma {:induction false} WhereAll<T>(s: seq<T>, keep: T -> bool)
    requires forall x :: x in s ==> keep(x)
    ensures Where(s, keep) == s
    decreases |s|
  {
    if s != [] {
      WhereAll(s[..|s| - 1], keep);
      assert s[..|s| - 1] + [s[|s| - 1]] == s;
    }
  }

  /** The keys of `s`, each exactly once. The body keeps the first
      occurrence of each key; the contract does not state that order. */
  function Distinct<K(==)>(s: seq<K>): (r: seq<K>)
    ensures forall i :: 0 <= i < |r| ==> r[i] in s
    ensures forall i :: 0 <= i < |s| ==> s[i] in r
    ensures forall i, j :: 0 <= i < j < |r| ==> r[i] != r[j]
    decreases |s|
  {
    if s == [] then []
    else
      var r := Distinct(s[..|s| - 1]);
      if s[|s| - 1] in r then r else r + [s[|s| - 1]]
  }

  predicate SortedBy<T>(s: seq<T>, rank: T -> int)
  {
    forall i, j :: 0 <= i < j < |s| ==> rank(s[i]) <= rank(s[j])
  }

  /** A run of consecutive elements of a sorted sequence is sorted. */
  lemma SortedSlice<T>(s: seq<T>, lo: nat, hi: nat, rank: T -> int)
    requires lo <= hi <= |s| && SortedBy(s, rank)
    ensures SortedBy(s[lo..hi], rank)
  {
    var t := s[lo..hi];
    forall i, j | 0 <= i < j < |t|
      ensures rank(t[i]) <= rank(t[j])
    {
      assert t[i] == s[lo + i] && t[j] == s[lo + j];
    }
  }

  /** Puts `x` after the last element of `s` whose rank is at most its own. */
  function InsertBy<T>(s: seq<T>, x: T, rank: T -> int): (r: seq<T>)
    ensures multiset(r) == multiset(s) + multiset{x}
    decreases |s|
  {
    if s == [] || rank(s[|s| - 1]) <= rank(x) then s + [x]
    else
      assert s[..|s| - 1] + [s[|s| - 1]] == s;
      InsertBy(s[..|s| - 1], x, rank) + [s[|s| - 1]]
  }

  /** Inserting into a sorted sequence keeps it sorted. */
  lemma {:induction false} InsertBySorted<T>(s: seq<T>, x: T, rank: T -> int)
    requires SortedBy(s, rank)
    ensures SortedBy(InsertBy(s, x, rank), rank)
    decreases |s|
  {
    if s != [] && rank(s[|s| - 1]) > rank(x) {
      var last := s[|s| - 1];
      var p := s[..|s| - 1];
      InsertBySorted(p, x, rank);
      var t := InsertBy(p, x, rank);
      forall i | 0 <= i < |t|
        ensures rank(t[i]) <= rank(last)
      {
        assert t[i] in multiset(t);
        if t[i] != x {
          assert t[i] in multiset(p);
          var k :| 0 <= k < |p| && p[k] == t[i];
          assert p[k] == s[k];
        }
      }
    }
  }

  /** A stable sort of `s` by ascending rank. */
  function SortBy<T>(s: seq<T>, rank: T -> int): (r: seq<T>)
    ensures multiset(r) == multiset(s)
    decreases |s|
  {
    if s == [] then []
    else
      assert s[..|s| - 1] + [s[|s| - 1]] == s;
      InsertBy(SortBy(s[..|s| - 1], rank), s[|s| - 1], rank)
  }

  lemma {:induction false} SortBySorted<T>(s: seq<T>, rank: T -> int)
    ensures SortedBy(SortBy(s, rank), rank)
    decreases |s|
  {
    if s != [] {
      SortBySorted(s[..|s| - 1], rank);
      InsertBySorted(SortBy(s[..|s| - 1], rank), s[|s| - 1], rank);
    }
  }

  /** The elements of one rank. */
  function RankIs<T>(rank: T -> int, v: int): T -> bool
  {
    x => rank(x) == v
  }

  lemma WhereSnoc<T>(s: seq<T>, x: T, keep: T -> bool)
    ensures Where(s + [x], keep) == Where(s, keep) + (if keep(x) then [x] else [])
  {
    assert (s + [x])[..|s|] == s;
  }

  /** Insertion puts `x` after every element of its own rank. */
  lemma {:induction false} InsertByStable<T>(s: seq<T>, x: T, rank: T -> int, v: int)
    ensures Where(InsertBy(s, x, rank), RankIs(rank, v)) == Where(s, RankIs(rank, v)) + (if rank(x) == v then [x] else [])
    decreases |s|
  {
    var eq := RankIs(rank, v);
    if s == [] || rank(s[|s| - 1]) <= rank(x) {
      WhereSnoc(s, x, eq);
    } else {
      var p := s[..|s| - 1];
      var last := s[|s| - 1];
      assert p + [last] == s;
      InsertByStable(p, x, rank, v);
      WhereSnoc(InsertBy(p, x, rank), last, eq);
      WhereSnoc(p, last, eq);
    }
  }

  /** The sort is stable: the elements of any one rank keep their order. */
  lemma {:induction false} SortByStable<T>(s: seq<T>, rank: T -> int, v: int)
    ensures Where(SortBy(s, rank), RankIs(rank, v)) == Where(s, RankIs(rank, v))
    decreases |s|
  {
    if s != [] {
      var p := s[..|s| - 1];
      SortByStable(p, rank, v);
      InsertByStable(SortBy(p, rank), s[|s| - 1], rank, v);
      assert p + [s[|s| - 1]] == s;
      WhereSnoc(p, s[|s| - 1], RankIs(rank, v));
    }
  }

  /** Sorting keeps the length and the elements. */
  lemma SortByElements<T>(s: seq<T>, rank: T -> int)
    ensures SortedBy(SortBy(s, rank), rank)
    ensures |SortBy(s, rank)| == |s|
    ensures forall x :: x in SortBy(s, rank) <==> x in s
  {
    SortBySorted(s, rank);
    var r := SortBy(s, rank);
    assert |r| == |multiset(r)| == |multiset(s)| == |s|;
    forall x
      ensures x in r <==> x in s
    {
      assert x in r <==> x in multiset(r);
      assert x in s <==> x in multiset(s);
    }
  }

  ghost predicate NoDuplicates<T>(s: seq<T>)
  {
    forall i, j :: 0 <= i < j < |s| ==> s[i] != s[j]
  }

  /** Inserting a new element into a sequence without repetition keeps it so. */
  lemma {:induction false} InsertByNoDuplicates<T>(s: seq<T>, x: T, rank: T -> int)
    requires NoDuplicates(s) && x !in s
    ensures NoDuplicates(InsertBy(s, x, rank))
    decreases |s|
  {
    if s == [] || rank(s[|s| - 1]) <= rank(x) {
      var r := s + [x];
      forall i, j | 0 <= i < j < |r|
        ensures r[i] != r[j]
      {
        if j == |s| {
          assert r[i] == s[i];
        } else {
          assert r[i] == s[i] && r[j] == s[j];
        }
      }
    } else {
      var p := s[..|s| - 1];
      var last := s[|s| - 1];
      assert forall i, j :: 0 <= i < j < |p| ==> p[i] == s[i] && p[j] == s[j];
      assert x !in p by {
        assert forall i :: 0 <= i < |p| ==> p[i] == s[i];
      }
      InsertByNoDuplicates(p, x, rank);
      var t := InsertBy(p, x, rank);
      assert last !in p by {
        forall i | 0 <= i < |p|
          ensures p[i] != last
        {
          assert p[i] == s[i];
        }
      }
      assert last !in multiset(t);
      var r := t + [last];
      forall i, j | 0 <= i < j < |r|
        ensures r[i] != r[j]
      {
        if j == |t| {
          assert r[i] == t[i];
          assert t[i] in multiset(t);
        } else {
          assert r[i] == t[i] && r[j] == t[j];
        }
      }
    }
  }

  /** Sorting a sequence without repetition gives one without repetition. */
  lemma {:induction false} SortByNoDuplicates<T>(s: seq<T>, rank: T -> int)
    requires NoDuplicates(s)
    ensures NoDuplicates(SortBy(s, rank))
    decreases |s|
  {
    if s != [] {
      var p := s[..|s| - 1];
      var last := s[|s| - 1];
      assert forall i, j :: 0 <= i < j < |p| ==> p[i] == s[i] && p[j] == s[j];
      SortByNoDuplicates(p, rank);
      assert last !in p by {
        forall i | 0 <= i < |p|
          ensures p[i] != last
        {
          assert p[i] == s[i];
        }
      }
      var t := SortBy(p, rank);
      assert last !in t by {
        assert last !in multiset(p);
        assert multiset(t) == multiset(p);
      }
      InsertByNoDuplicates(t, last, rank);
    }
  }
}
