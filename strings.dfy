/**
 The JavaScript string primitives the components rely on: the white-space class shared by
 the regular-expression escape `\s` and `String.prototype.trim`, `trim`, `toLowerCase`,
 `includes`, `split` on one character, `join`, and the `||` fallback on strings.
 A JavaScript string is modelled as a sequence of Unicode scalar values.
 */
module Strings {

  import opened Wrappers

  /** White space and line terminators: the characters `\s` matches and `trim` removes. */
  predicate IsSpace(c: char)
  {
    || c == ' ' || c == '\t' || c == '\n' || c == '\U{B}' || c == '\U{C}' || c == '\r'
    || c == '\U{A0}' || c == '\U{1680}' || ('\U{2000}' <= c <= '\U{200A}')
    || c == '\U{2028}' || c == '\U{2029}' || c == '\U{202F}' || c == '\U{205F}'
    || c == '\U{3000}' || c == '\U{FEFF}'
  }

  /** `v || fallback` for a string that may be absent: the empty string is falsy too. */
  function OrElse(v: Option<string>, fallback: string): (r: string)
    ensures v.Some? && v.value != "" ==> r == v.value
    ensures (v.None? || v.value == "") ==> r == fallback
  {
    if v.Some? && v.value != "" then v.value else fallback
  }

  /** Lower-casing of one character, for the ASCII letters. */
  function LowerChar(c: char): char
  {
    if 'A' <= c <= 'Z' then (c as int + 32) as char else c
  }

  /** `s.toLowerCase()` for ASCII letters; every other character is kept. */
  function Lower(s: string): (r: string)
    ensures |r| == |s|
    ensures forall i :: 0 <= i < |s| ==> r[i] == LowerChar(s[i])
  {
    seq(|s|, i requires 0 <= i < |s| => LowerChar(s[i]))
  }

  /** `sub` occurs in `s` starting at index `i`. */
  predicate OccursAt(s: string, sub: string, i: int)
  {
    0 <= i && i + |sub| <= |s| && s[i..i + |sub|] == sub
  }

  /** `s.includes(sub)`. */
  predicate Contains(s: string, sub: string)
  {
    exists i :: 0 <= i <= |s| - |sub| && OccursAt(s, sub, i)
  }

  /** Every string includes the empty string. */
  lemma ContainsEmpty(s: string)
    ensures Contains(s, "")
  {
    assert OccursAt(s, "", 0);
  }

  /** The number of white-space characters in front of `s`. */
  function LeadingSpaces(s: string): (n: nat)
    ensures n <= |s|
    ensures forall k :: 0 <= k < n ==> IsSpace(s[k])
    ensures n < |s| ==> !IsSpace(s[n])
  {
    if |s| > 0 && IsSpace(s[0]) then 1 + LeadingSpaces(s[1..]) else 0
  }

  /** The index at which the trailing white space of `s` starts. */
  function TrailingStart(s: string): (n: nat)
    ensures n <= |s|
    ensures forall k :: n <= k < |s| ==> IsSpace(s[k])
    ensures n > 0 ==> !IsSpace(s[n - 1])
  {
    if |s| > 0 && IsSpace(s[|s| - 1]) then TrailingStart(s[..|s| - 1]) else |s|
  }

  /** Where `s.trim()` ends: after the last character that is not white space, or at the
      end of the leading white space when there is none. */
  function TrimEnd(s: string): (hi: nat)
    ensures LeadingSpaces(s) <= hi <= |s|
    ensures forall k :: hi <= k < |s| ==> IsSpace(s[k])
    ensures hi > LeadingSpaces(s) ==> !IsSpace(s[hi - 1])
  {
    var lo := LeadingSpaces(s);
    var n := TrailingStart(s);
    if n <= lo then lo else n
  }

  /** `s.trim()`: `s` without its leading and trailing white space. */
  function Trim(s: string): (r: string)
    ensures r == "" || (!IsSpace(r[0]) && !IsSpace(r[|r| - 1]))
    ensures r == "" <==> forall k :: 0 <= k < |s| ==> IsSpace(s[k])
  {
    var lo, hi := LeadingSpaces(s), TrimEnd(s);
    s[lo..hi]
  }

  /** Trimming adds no character. */
  lemma TrimSubset(s: string)
    ensures forall ch :: ch in Trim(s) ==> ch in s
  {
    var lo := LeadingSpaces(s);
    assert forall k :: 0 <= k < |Trim(s)| ==> Trim(s)[k] == s[lo + k];
  }

  /** Trimming a string with no white space at either end changes nothing. */
  lemma TrimUnpadded(s: string)
    requires s == "" || (!IsSpace(s[0]) && !IsSpace(s[|s| - 1]))
    ensures Trim(s) == s
  {
    assert LeadingSpaces(s) == 0;
    assert TrailingStart(s) == |s|;
    assert TrimEnd(s) == |s|;
  }

  /** The first index at or after `from` holding `c`, or `|s|` when there is none. */
  function IndexOf(s: string, from: nat, c: char): (k: nat)
    requires from <= |s|
    ensures from <= k <= |s|
    ensures forall i :: from <= i < k ==> s[i] != c
    ensures k < |s| ==> s[k] == c
    decreases |s| - from
  {
    if from == |s| || s[from] == c then from else IndexOf(s, from + 1, c)
  }

  /** `s.split(sep)` for a one-character separator: the pieces between separators. */
  function Split(s: string, sep: char): (r: seq<string>)
    ensures |r| >= 1
    ensures forall i :: 0 <= i < |r| ==> sep !in r[i]
    decreases |s|
  {
    var k := IndexOf(s, 0, sep);
    if k == |s| then [s] else [s[..k]] + Split(s[k + 1..], sep)
  }

  /** `parts.join(glue)`. */
  function Join(parts: seq<string>, glue: string): string
  {
    if |parts| == 0 then ""
    else if |parts| == 1 then parts[0]
    else parts[0] + glue + Join(parts[1..], glue)
  }

  /** Joining the pieces of a split with the separator gives back the string. */
  lemma {:induction false} JoinSplit(s: string, sep: char)
    ensures Join(Split(s, sep), [sep]) == s
    decreases |s|
  {
    var k := IndexOf(s, 0, sep);
    if k < |s| {
      var rest := Split(s[k + 1..], sep);
      JoinSplit(s[k + 1..], sep);
      assert Split(s, sep) == [s[..k]] + rest;
      assert s == s[..k] + [sep] + s[k + 1..];
    }
  }

  /** Joining two non-empty lists of pieces is joining each and gluing the results. */
  lemma {:induction false} JoinAppend(x: seq<string>, y: seq<string>, glue: string)
    requires |x| >= 1 && |y| >= 1
    ensures Join(x + y, glue) == Join(x, glue) + glue + Join(y, glue)
  {
    if |x| > 1 {
      assert (x + y)[0] == x[0] && (x + y)[1..] == x[1..] + y;
      JoinAppend(x[1..], y, glue);
    } else {
      assert (x + y)[0] == x[0] && (x + y)[1..] == y;
    }
  }

  /** A separator splits a string into the pieces of what stands before it followed by the
      pieces of what stands after it. */
  lemma SplitAround(a: string, b: string, sep: char)
    ensures Split(a + [sep] + b, sep) == Split(a, sep) + Split(b, sep)
  {
    JoinSplit(a, sep);
    JoinSplit(b, sep);
    JoinAppend(Split(a, sep), Split(b, sep), [sep]);
    var parts := Split(a, sep) + Split(b, sep);
    forall i | 0 <= i < |parts| ensures sep !in parts[i] {
      if i >= |Split(a, sep)| { assert parts[i] == Split(b, sep)[i - |Split(a, sep)|]; }
    }
    SplitJoin(parts, sep);
  }

  /** A string without the separator is one piece. */
  lemma SplitNoSeparator(s: string, sep: char)
    requires sep !in s
    ensures Split(s, sep) == [s]
  {
    assert forall i :: 0 <= i < |s| ==> s[i] != sep;
    assert IndexOf(s, 0, sep) == |s|;
  }

  /** Splitting a join of separator-free pieces gives back the pieces. */
  lemma {:induction false} SplitJoin(parts: seq<string>, sep: char)
    requires |parts| >= 1
    requires forall i :: 0 <= i < |parts| ==> sep !in parts[i]
    ensures Split(Join(parts, [sep]), sep) == parts
  {
    var s := Join(parts, [sep]);
    var p := parts[0];
    if |parts| == 1 {
      assert forall i :: 0 <= i < |p| ==> p[i] != sep;
      assert IndexOf(p, 0, sep) == |p|;
    } else {
      var tail := Join(parts[1..], [sep]);
      assert s == p + [sep] + tail;
      assert forall i :: 0 <= i < |p| ==> s[i] == p[i] && s[i] != sep;
      assert s[|p|] == sep;
      assert IndexOf(s, 0, sep) == |p|;
      assert s[..|p|] == p;
      assert s[|p| + 1..] == tail;
      SplitJoin(parts[1..], sep);
    }
  }

}
