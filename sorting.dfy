/**
 `Array.prototype.sort(compare)`: the engine's routine is not part of this model, so it is
 modelled by a stable insertion sort under the order `le`, where `le(a, b)` says that `a`
 may stay in front of `b` (the comparator returns a value no greater than 0).
 */
module Sorting {

  import Seqs

  /** `le` relates every pair one way or the other, and chains. */
  ghost predicate TotalPreorder<T(!new)>(le: (T, T) -> bool)
  {
    && (forall a, b :: le(a, b) || le(b, a))
    && (forall a, b, c :: le(a, b) && le(b, c) ==> le(a, c))
  }

  predicate SortedBy<T>(s: seq<T>, le: (T, T) -> bool)
  {
    forall i, j :: 0 <= i < j < |s| ==> le(s[i], s[j])
  }

  /** `x` placed in front of the first element it may precede. */
  function InsertBy<T(!new)>(x: T, s: seq<T>, le: (T, T) -> bool): (r: seq<T>)
    ensures multiset(r) == multiset(s) + multiset{x}
  {
    if s == [] then [x]
    else if le(x, s[0]) then [x] + s
    else
      assert s == [s[0]] + s[1..];
      [s[0]] + InsertBy(x, s[1..], le)
  }

  /** Inserting into a sorted sequence keeps it sorted. */
  lemma {:induction false} InsertBySorted<T(!new)>(x: T, s: seq<T>, le: (T, T) -> bool)
    requires TotalPreorder(le) && SortedBy(s, le)
    ensures SortedBy(InsertBy(x, s, le), le)
  {
    if s == [] {
    } else if le(x, s[0]) {
      assert forall j :: 0 <= j < |s| ==> le(s[0], s[j]) ==> le(x, s[j]);
      ConsSorted(x, s, le);
    } else {
      var rest := InsertBy(x, s[1..], le);
      assert SortedBy(s[1..], le);
      InsertBySorted(x, s[1..], le);
      HeadPrecedesInsert(x, s, rest, le);
      ConsSorted(s[0], rest, le);
    }
  }

  /** A head that may precede every element of a sorted tail keeps the whole sorted. */
  lemma ConsSorted<T>(h: T, s: seq<T>, le: (T, T) -> bool)
    requires SortedBy(s, le) && forall j :: 0 <= j < |s| ==> le(h, s[j])
    ensures SortedBy([h] + s, le)
  {
    var r := [h] + s;
    forall i, j | 0 <= i < j < |r| ensures le(r[i], r[j]) {
      assert r[j] == s[j - 1];
      if i > 0 { assert r[i] == s[i - 1]; }
    }
  }

  /** When `x` goes after the head of a sorted `s`, the head may precede everything after it. */
  lemma HeadPrecedesInsert<T(!new)>(x: T, s: seq<T>, rest: seq<T>, le: (T, T) -> bool)
    requires s != [] && TotalPreorder(le) && SortedBy(s, le) && !le(x, s[0])
    requires multiset(rest) == multiset(s[1..]) + multiset{x}
    ensures forall j :: 0 <= j < |rest| ==> le(s[0], rest[j])
  {
    forall j | 0 <= j < |rest| ensures le(s[0], rest[j]) {
      assert rest[j] in multiset(rest);
      if rest[j] != x {
        assert rest[j] in multiset(s[1..]);
        var k :| 0 <= k < |s[1..]| && s[1..][k] == rest[j];
        assert s[k + 1] == rest[j];
      }
    }
  }

  /** The elements of `s` in the order `le`, equal elements in their original order. */
  function SortBy<T(!new)>(s: seq<T>, le: (T, T) -> bool): (r: seq<T>)
    ensures multiset(r) == multiset(s)
    ensures |r| == |s|
    ensures forall x :: x in r <==> x in s
    ensures TotalPreorder(le) ==> SortedBy(r, le)
  {
    if s == [] then []
    else
      assert s == [s[0]] + s[1..];
      var r := InsertBy(s[0], SortBy(s[1..], le), le);
      assert |r| == |multiset(r)| == |multiset(s)| == |s|;
      assert TotalPreorder(le) ==> SortedBy(r, le) by {
        if TotalPreorder(le) {
          InsertBySorted(s[0], SortBy(s[1..], le), le);
        }
      }
      forall x ensures x in r <==> x in s {
        assert x in r <==> x in multiset(r);
        assert x in s <==> x in multiset(s);
      }
      r
  }

  /** A sequence already in order is left as it is. */
  lemma {:induction false} SortBySorted<T(!new)>(s: seq<T>, le: (T, T) -> bool)
    requires SortedBy(s, le)
    ensures SortBy(s, le) == s
  {
    if s != [] {
      assert SortedBy(s[1..], le);
      SortBySorted(s[1..], le);
      assert s == [s[0]] + s[1..];
    }
  }

  /** Inserting a new element into a sequence without duplicates makes none. */
  lemma {:induction false} InsertByDistinct<T(!new)>(x: T, s: seq<T>, le: (T, T) -> bool)
    requires x !in s && Seqs.Distinct(s)
    ensures Seqs.Distinct(InsertBy(x, s, le))
  {
    if s != [] && !le(x, s[0]) {
      var rest := InsertBy(x, s[1..], le);
      InsertByDistinct(x, s[1..], le);
      assert s[0] !in s[1..] by {
        assert forall j :: 1 <= j < |s| ==> s[0] != s[j];
      }
      assert s[0] !in multiset(rest) by {
        assert multiset(rest) == multiset(s[1..]) + multiset{x};
      }
    }
  }

  /** Sorting keeps the elements, so without duplicates in, none come out. */
  lemma {:induction false} SortByDistinct<T(!new)>(s: seq<T>, le: (T, T) -> bool)
    requires Seqs.Distinct(s)
    ensures Seqs.Distinct(SortBy(s, le))
  {
    if s != [] {
      SortByDistinct(s[1..], le);
      assert s[0] !in multiset(SortBy(s[1..], le)) by {
        assert s[0] !in s[1..] by {
          assert forall j :: 1 <= j < |s| ==> s[0] != s[j];
        }
      }
      InsertByDistinct(s[0], SortBy(s[1..], le), le);
    }
  }

  /** The lexicographic order of strings by character code, JavaScript's default `sort()`. */
  predicate LexLe(a: string, b: string)
  {
    a == [] || (b != [] && (a[0] < b[0] || (a[0] == b[0] && LexLe(a[1..], b[1..]))))
  }

  lemma {:induction false} LexTotal(a: string, b: string)
    ensures LexLe(a, b) || LexLe(b, a)
  {
    if a != [] && b != [] && a[0] == b[0] {
      LexTotal(a[1..], b[1..]);
    }
  }

  lemma {:induction false} LexTrans(a: string, b: string, c: string)
    requires LexLe(a, b) && LexLe(b, c)
    ensures LexLe(a, c)
  {
    if a != [] && b != [] && c != [] && a[0] == b[0] && b[0] == c[0] {
      LexTrans(a[1..], b[1..], c[1..]);
    }
  }

  /** `LexLe` orders strings totally. */
  lemma LexTotalPreorder()
    ensures TotalPreorder(LexLe)
  {
    forall a, b ensures LexLe(a, b) || LexLe(b, a) {
      LexTotal(a, b);
    }
    forall a, b, c | LexLe(a, b) && LexLe(b, c) ensures LexLe(a, c) {
      LexTrans(a, b, c);
    }
  }

}
