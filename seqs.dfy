/**
 Sequence operations the components use through JavaScript's array methods:
 `filter`, set-based de-duplication (`[...new Set(xs)]`), `slice(0, n)`.
 */
module Seqs {

  /** No element occurs twice. */
  predicate Distinct<T(==)>(s: seq<T>)
  {
    forall i, j :: 0 <= i < j < |s| ==> s[i] != s[j]
  }

  /** Index of the first occurrence of `x` in `s`. */
  function FirstIndex<T(==)>(s: seq<T>, x: T): (k: nat)
    requires x in s
    ensures k < |s| && s[k] == x
    ensures forall i :: 0 <= i < k ==> s[i] != x
  {
    if s[0] == x then 0 else 1 + FirstIndex(s[1..], x)
  }

  /** `s.filter(p)`: the elements satisfying `p`, in their original order. */
  function Filter<T(!new)>(s: seq<T>, p: T -> bool): (r: seq<T>)
    ensures |r| <= |s|
    ensures forall x :: x in r <==> x in s && p(x)
  {
    if s == [] then []
    else
      assert s == [s[0]] + s[1..];
      if p(s[0]) then [s[0]] + Filter(s[1..], p)
      else Filter(s[1..], p)
  }

  /** A filter keeps every copy of an element it keeps, and no copy of one it drops. */
  lemma {:induction false} FilterMultiset<T(!new)>(s: seq<T>, p: T -> bool, x: T)
    ensures multiset(Filter(s, p))[x] == if p(x) then multiset(s)[x] else 0
  {
    if s != [] {
      assert s == [s[0]] + s[1..];
      FilterMultiset(s[1..], p, x);
    }
  }

  /** Two elements kept by a filter come from positions `a < b` of the input: the filter
      keeps the order of what it keeps. */
  lemma {:induction false} FilterKeepsOrder<T(!new)>(s: seq<T>, p: T -> bool, i: nat, j: nat) returns (a: nat, b: nat)
    requires i < j < |Filter(s, p)|
    ensures a < b < |s| && s[a] == Filter(s, p)[i] && s[b] == Filter(s, p)[j]
  {
    var t := s[1..];
    var rest := Filter(t, p);
    if p(s[0]) {
      assert Filter(s, p) == [s[0]] + rest;
      if i == 0 {
        var b' := FilterIndex(t, p, j - 1);
        a, b := 0, b' + 1;
      } else {
        var a', b' := FilterKeepsOrder(t, p, i - 1, j - 1);
        a, b := a' + 1, b' + 1;
      }
    } else {
      assert Filter(s, p) == rest;
      var a', b' := FilterKeepsOrder(t, p, i, j);
      a, b := a' + 1, b' + 1;
    }
  }

  /** Each element a filter keeps sits at some position of the input. */
  lemma {:induction false} FilterIndex<T(!new)>(s: seq<T>, p: T -> bool, i: nat) returns (a: nat)
    requires i < |Filter(s, p)|
    ensures a < |s| && s[a] == Filter(s, p)[i]
  {
    var t := s[1..];
    if p(s[0]) {
      assert Filter(s, p) == [s[0]] + Filter(t, p);
      if i == 0 {
        a := 0;
      } else {
        var a' := FilterIndex(t, p, i - 1);
        a := a' + 1;
      }
    } else {
      var a' := FilterIndex(t, p, i);
      a := a' + 1;
    }
  }

  /** Filtering a concatenation filters each part. */
  lemma {:induction false} FilterAppend<T(!new)>(a: seq<T>, b: seq<T>, p: T -> bool)
    ensures Filter(a + b, p) == Filter(a, p) + Filter(b, p)
  {
    if a == [] {
      assert a + b == b;
    } else {
      assert (a + b)[0] == a[0] && (a + b)[1..] == a[1..] + b;
      FilterAppend(a[1..], b, p);
    }
  }

  /** A filter that keeps every element changes nothing. */
  lemma {:induction false} FilterAll<T(!new)>(s: seq<T>, p: T -> bool)
    requires forall x :: x in s ==> p(x)
    ensures Filter(s, p) == s
  {
    if s != [] {
      FilterAll(s[1..], p);
    }
  }

  /** Elements of `s` not in `seen`, each once, in order of first occurrence:
      iterating a JavaScript `Set` built from `s`, minus the elements of `seen`. */
  function DedupFrom<T(==,!new)>(s: seq<T>, seen: set<T>): (r: seq<T>)
    ensures forall x :: x in r <==> x in s && x !in seen
    ensures Distinct(r)
  {
    if s == [] then []
    else if s[0] in seen then DedupFrom(s[1..], seen)
    else [s[0]] + DedupFrom(s[1..], seen + {s[0]})
  }

  /** `[...new Set(s)]`. */
  function Dedup<T(==,!new)>(s: seq<T>): (r: seq<T>)
    ensures forall x :: x in r <==> x in s
    ensures Distinct(r)
  {
    DedupFrom(s, {})
  }

  /** De-duplication keeps the order in which elements first occur in the input. */
  lemma {:induction false} DedupFromOrder<T(!new)>(s: seq<T>, seen: set<T>, i: nat, j: nat)
    requires i < j < |DedupFrom(s, seen)|
    ensures DedupFrom(s, seen)[i] in s && DedupFrom(s, seen)[j] in s
    ensures FirstIndex(s, DedupFrom(s, seen)[i]) < FirstIndex(s, DedupFrom(s, seen)[j])
  {
    var r := DedupFrom(s, seen);
    var a, b := r[i], r[j];
    assert a in r && b in r;
    var seen', k := if s[0] in seen then seen else seen + {s[0]}, if s[0] in seen then 0 else 1;
    var r' := DedupFrom(s[1..], seen');
    assert r == if s[0] in seen then r' else [s[0]] + r';
    assert b == r'[j - k] && b in r' && b != s[0];
    FirstIndexTail(s, b);
    if i < k {
      assert a == s[0];
    } else {
      assert a == r'[i - k] && a in r' && a != s[0];
      DedupFromOrder(s[1..], seen', i - k, j - k);
      FirstIndexTail(s, a);
    }
  }

  /** Past a head that differs, the first occurrence is one further on in the tail. */
  lemma FirstIndexTail<T>(s: seq<T>, x: T)
    requires s != [] && x in s[1..] && s[0] != x
    ensures FirstIndex(s, x) == 1 + FirstIndex(s[1..], x)
  {
  }

  lemma DedupOrder<T(!new)>(s: seq<T>, i: nat, j: nat)
    requires i < j < |Dedup(s)|
    ensures Dedup(s)[i] in s && Dedup(s)[j] in s
    ensures FirstIndex(s, Dedup(s)[i]) < FirstIndex(s, Dedup(s)[j])
  {
    DedupFromOrder(s, {}, i, j);
  }

  /** A sequence without members is empty. */
  lemma NoMembersEmpty<T>(s: seq<T>)
    ensures (forall x :: x !in s) ==> s == []
  {
    if s != [] {
      assert s[0] in s;
    }
  }

  /** `s.slice(0, n)`. */
  function Take<T>(s: seq<T>, n: nat): (r: seq<T>)
    ensures |r| <= n && |r| <= |s|
    ensures |s| <= n ==> r == s
    ensures |s| > n ==> |r| == n
    ensures forall i :: 0 <= i < |r| ==> r[i] == s[i]
  {
    if |s| <= n then s else s[..n]
  }

}
