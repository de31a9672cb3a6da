/**
 The text clean-up helpers of the article pipeline (src/lib/text.js): collapsing white space,
 cutting to a length, turning HTML into readable text, and the offline part of
 `loadTextFromInput`. Each regular expression of the source is modelled by a scanner
 that walks the string left to right, matching at the leftmost position first and
 continuing after each match, as JavaScript's global `replace` does.
 */
module TextUtil {

  import opened Wrappers
  import opened Strings
  import Seqs

  /** The limit `loadTextFromInput` applies to its result. */
  const MaxSourceChars: nat := 12000

  /** No two neighbouring characters are both white space. */
  predicate NoDoubleSpace(r: string)
  {
    forall i :: 0 <= i < |r| - 1 ==> !(IsSpace(r[i]) && IsSpace(r[i + 1]))
  }

  /** Every white-space character is the plain blank. */
  predicate SpacesAreBlanks(r: string)
  {
    forall i :: 0 <= i < |r| ==> IsSpace(r[i]) ==> r[i] == ' '
  }

  /** The characters of `s` that are not white space, in order. */
  function NonSpace(s: string): string
  {
    if s == [] then []
    else (if IsSpace(s[0]) then [] else [s[0]]) + NonSpace(s[1..])
  }

  lemma {:induction false} NonSpaceAppend(a: string, b: string)
    ensures NonSpace(a + b) == NonSpace(a) + NonSpace(b)
  {
    if a == [] {
      assert a + b == b;
    } else {
      assert (a + b)[0] == a[0] && (a + b)[1..] == a[1..] + b;
      NonSpaceAppend(a[1..], b);
    }
  }

  lemma {:induction false} NonSpaceOfSpaces(s: string)
    requires forall k :: 0 <= k < |s| ==> IsSpace(s[k])
    ensures NonSpace(s) == []
  {
    if s != [] {
      NonSpaceOfSpaces(s[1..]);
    }
  }

  /** `s.replace(/\s+/g, " ")`: every maximal run of white space becomes one blank. */
  function CollapseSpaces(s: string): (r: string)
    ensures NoDoubleSpace(r) && SpacesAreBlanks(r)
    ensures r == [] <==> s == []
    ensures r != [] ==> (IsSpace(r[0]) <==> IsSpace(s[0]))
    decreases |s|
  {
    if s == [] then []
    else if IsSpace(s[0]) then " " + CollapseSpaces(s[LeadingSpaces(s)..])
    else [s[0]] + CollapseSpaces(s[1..])
  }

  /** Collapsing keeps every character that is not white space, in order. */
  lemma {:induction false} CollapseKeepsNonSpace(s: string)
    ensures NonSpace(CollapseSpaces(s)) == NonSpace(s)
    decreases |s|
  {
    if s != [] {
      if IsSpace(s[0]) {
        var n := LeadingSpaces(s);
        CollapseKeepsNonSpace(s[n..]);
        assert NonSpace(CollapseSpaces(s)) == NonSpace(CollapseSpaces(s[n..])) by {
          NonSpaceAppend(" ", CollapseSpaces(s[n..]));
          NonSpaceOfSpaces(" ");
        }
        assert NonSpace(s) == NonSpace(s[n..]) by {
          assert s == s[..n] + s[n..];
          NonSpaceAppend(s[..n], s[n..]);
          NonSpaceOfSpaces(s[..n]);
        }
      } else {
        CollapseKeepsNonSpace(s[1..]);
        assert NonSpace(s) == [s[0]] + NonSpace(s[1..]) by {
          assert s == [s[0]] + s[1..];
          NonSpaceAppend([s[0]], s[1..]);
        }
        NonSpaceAppend([s[0]], CollapseSpaces(s[1..]));
      }
    }
  }

  /** A string already in collapsed form is left as it is. */
  lemma {:induction false} CollapseFixed(s: string)
    requires NoDoubleSpace(s) && SpacesAreBlanks(s)
    ensures CollapseSpaces(s) == s
    decreases |s|
  {
    if s != [] {
      assert NoDoubleSpace(s[1..]) && SpacesAreBlanks(s[1..]);
      if IsSpace(s[0]) {
        assert LeadingSpaces(s) == 1;
      }
      CollapseFixed(s[1..]);
    }
  }

  /** A slice of a collapsed string is collapsed. */
  lemma SliceKeepsCollapsed(c: string, lo: nat, hi: nat)
    requires lo <= hi <= |c| && NoDoubleSpace(c) && SpacesAreBlanks(c)
    ensures NoDoubleSpace(c[lo..hi]) && SpacesAreBlanks(c[lo..hi])
  {
    var r := c[lo..hi];
    assert forall i :: 0 <= i < |r| ==> r[i] == c[lo + i];
  }

  /** `sanitizeWhitespace(str)`: `(str || "").replace(/\s+/g, " ").trim()`. */
  function SanitizeWhitespace(str: Option<string>): (r: string)
    ensures r == "" || (!IsSpace(r[0]) && !IsSpace(r[|r| - 1]))
    ensures NoDoubleSpace(r) && SpacesAreBlanks(r)
    ensures str.None? ==> r == ""
  {
    var c := CollapseSpaces(OrElse(str, ""));
    SliceKeepsCollapsed(c, LeadingSpaces(c), TrimEnd(c));
    Trim(c)
  }

  /** Trimming keeps every character that is not white space, in order. */
  lemma TrimKeepsNonSpace(c: string)
    ensures NonSpace(Trim(c)) == NonSpace(c)
  {
    var lo, hi := LeadingSpaces(c), TrimEnd(c);
    var a, m, b := c[..lo], c[lo..hi], c[hi..];
    assert c == a + m + b;
    NonSpaceAppend(a + m, b);
    NonSpaceAppend(a, m);
    NonSpaceOfSpaces(a);
    NonSpaceOfSpaces(b);
  }

  /** Sanitising keeps every character that is not white space, in order. */
  lemma SanitizeKeepsNonSpace(s: string)
    ensures NonSpace(SanitizeWhitespace(Some(s))) == NonSpace(s)
  {
    assert SanitizeWhitespace(Some(s)) == Trim(CollapseSpaces(s));
    CollapseKeepsNonSpace(s);
    TrimKeepsNonSpace(CollapseSpaces(s));
  }

  /** Sanitising twice is the same as sanitising once. */
  lemma SanitizeIdempotent(s: Option<string>)
    ensures SanitizeWhitespace(Some(SanitizeWhitespace(s))) == SanitizeWhitespace(s)
  {
    var r := SanitizeWhitespace(s);
    if r != "" {
      assert OrElse(Some(r), "") == r;
      CollapseFixed(r);
      TrimUnpadded(r);
    }
  }

  /** `limitLength(str, maxChars)`: falsy input gives "", otherwise the first `maxChars` characters. */
  function LimitLength(str: Option<string>, maxChars: nat): (r: string)
    ensures |r| <= maxChars
    ensures (str.None? || str.value == "") ==> r == ""
    ensures str.Some? ==> |r| == (if |str.value| <= maxChars then |str.value| else maxChars)
    ensures str.Some? ==> r == str.value[..|r|]
  {
    if str.None? || str.value == "" then ""
    else if |str.value| <= maxChars then str.value
    else str.value[..maxChars]
  }

  /** `pat` (written in lower case) starts at index `i` of `s`, ignoring ASCII case. */
  predicate StartsWithAt(s: string, i: nat, pat: string)
  {
    i + |pat| <= |s| && forall k :: 0 <= k < |pat| ==> LowerChar(s[i + k]) == pat[k]
  }

  /** The first index at or after `from` where `pat` starts, ignoring ASCII case. */
  function FindFrom(s: string, from: nat, pat: string): (r: Option<nat>)
    requires from <= |s|
    ensures r.Some? ==> from <= r.value && StartsWithAt(s, r.value, pat)
    ensures r.Some? ==> forall k :: from <= k < r.value ==> !StartsWithAt(s, k, pat)
    ensures r.None? ==> forall k :: from <= k <= |s| ==> !StartsWithAt(s, k, pat)
    decreases |s| - from
  {
    if StartsWithAt(s, from, pat) then Some(from)
    else if from == |s| then None
    else FindFrom(s, from + 1, pat)
  }

  /** Length of a match of `/<name[^>]*>[\s\S]*?<\/name>/i` at the start of `s`:
      the opening tag runs to its first `>`, the block to the first closing tag after it. */
  function BlockAt(s: string, name: string): (r: Option<nat>)
    ensures r.Some? ==> 0 < r.value <= |s|
  {
    var open := "<" + name;
    var close := "</" + name + ">";
    if !StartsWithAt(s, 0, open) then None
    else
      var gt := IndexOf(s, |open|, '>');
      if gt == |s| then None
      else
        match FindFrom(s, gt + 1, close)
        case None => None
        case Some(m) => Some(m + |close|)
  }

  /** `matchAt` gives the length of a match at the start of a string, never zero and never
      past its end. */
  ghost predicate Matcher(matchAt: string -> Option<nat>)
  {
    forall t :: matchAt(t).Some? ==> 0 < matchAt(t).value <= |t|
  }

  /** `s.replace(re, " ")` for a global regular expression whose match at the start of a
      string is `matchAt`: scanning left to right, each match becomes one blank and the scan
      goes on after it. */
  function ReplaceMatches(s: string, matchAt: string -> Option<nat>): (r: string)
    requires Matcher(matchAt)
    ensures |r| <= |s|
    decreases |s|
  {
    if s == [] then []
    else
      match matchAt(s)
      case Some(n) => " " + ReplaceMatches(s[n..], matchAt)
      case None => [s[0]] + ReplaceMatches(s[1..], matchAt)
  }

  /** The match of `/<name[^>]*>[\s\S]*?<\/name>/i` as a matcher. */
  function BlockMatcher(name: string): (m: string -> Option<nat>)
    ensures Matcher(m)
  {
    t => BlockAt(t, name)
  }

  /** `s.replace(/<name[^>]*>[\s\S]*?<\/name>/gi, " ")`. */
  function StripBlocks(s: string, name: string): (r: string)
    ensures |r| <= |s|
  {
    ReplaceMatches(s, BlockMatcher(name))
  }

  /** No position of `r` starts a `name` block. */
  predicate BlockFree(r: string, name: string)
  {
    forall i :: 0 <= i < |r| ==> BlockAt(r[i..], name).None?
  }

  /** A pattern without a blank in it. */
  predicate Blankless(name: string)
  {
    forall k :: 0 <= k < |name| ==> name[k] != ' '
  }

  function Shift(o: Option<nat>, d: nat): Option<nat>
  {
    if o.None? then None else Some(o.value + d)
  }

  /** Where character `j` of `ReplaceMatches(t, m)` comes from: `None` for the blank that
      replaced a match, `Some(k)` for the character `t[k]` kept as it was. */
  ghost function Src(t: string, m: string -> Option<nat>, j: nat): (o: Option<nat>)
    requires Matcher(m) && j < |ReplaceMatches(t, m)|
    ensures o.Some? ==> j <= o.value < |t|
    decreases |t|
  {
    match m(t)
    case Some(n) => if j == 0 then None else Shift(Src(t[n..], m, j - 1), n)
    case None => if j == 0 then Some(0) else Shift(Src(t[1..], m, j - 1), 1)
  }

  /** The output character at `j` is the blank of a match or the input character it names. */
  lemma {:induction false} SrcChar(t: string, m: string -> Option<nat>, j: nat)
    requires Matcher(m) && j < |ReplaceMatches(t, m)|
    ensures Src(t, m, j).None? ==> ReplaceMatches(t, m)[j] == ' '
    ensures Src(t, m, j).Some? ==> ReplaceMatches(t, m)[j] == t[Src(t, m, j).value]
    decreases |t|
  {
    var r := ReplaceMatches(t, m);
    match m(t)
    case Some(n) =>
      var rest := ReplaceMatches(t[n..], m);
      assert r == " " + rest;
      if j > 0 {
        var x := Src(t[n..], m, j - 1);
        assert Src(t, m, j) == Shift(x, n);
        SrcChar(t[n..], m, j - 1);
        assert r[j] == rest[j - 1];
        if x.Some? { assert t[n..][x.value] == t[x.value + n]; }
      }
    case None =>
      var rest := ReplaceMatches(t[1..], m);
      assert r == [t[0]] + rest;
      if j > 0 {
        var x := Src(t[1..], m, j - 1);
        assert Src(t, m, j) == Shift(x, 1);
        SrcChar(t[1..], m, j - 1);
        assert r[j] == rest[j - 1];
        if x.Some? { assert t[1..][x.value] == t[x.value + 1]; }
      } else {
        assert Src(t, m, 0) == Some(0);
      }
  }

  /** Two neighbouring kept characters are neighbours in the input too. */
  lemma {:induction false} SrcStep(t: string, m: string -> Option<nat>, j: nat)
    requires Matcher(m) && j + 1 < |ReplaceMatches(t, m)|
    requires Src(t, m, j).Some? && Src(t, m, j + 1).Some?
    ensures Src(t, m, j + 1).value == Src(t, m, j).value + 1
    decreases |t|
  {
    match m(t)
    case Some(n) =>
      SrcStep(t[n..], m, j - 1);
    case None =>
      if j > 0 {
        SrcStep(t[1..], m, j - 1);
      }
  }

  /** Kept characters keep their order. */
  lemma {:induction false} SrcMono(t: string, m: string -> Option<nat>, j1: nat, j2: nat)
    requires Matcher(m) && j1 < j2 < |ReplaceMatches(t, m)|
    requires Src(t, m, j1).Some? && Src(t, m, j2).Some?
    ensures Src(t, m, j1).value < Src(t, m, j2).value
    decreases |t|
  {
    var n := if m(t).Some? then m(t).value else 1;
    if m(t).None? && j1 == 0 {
      assert Src(t, m, j1) == Some(0);
    } else {
      assert j1 > 0;
      var x1, x2 := Src(t[n..], m, j1 - 1), Src(t[n..], m, j2 - 1);
      assert Src(t, m, j1) == Shift(x1, n) && Src(t, m, j2) == Shift(x2, n);
      SrcMono(t[n..], m, j1 - 1, j2 - 1);
    }
  }

  /** A run of non-blank output characters is a run of consecutive input characters. */
  lemma {:induction false} SrcRun(t: string, m: string -> Option<nat>, j: nat, len: nat)
    requires Matcher(m) && 0 < len && j + len <= |ReplaceMatches(t, m)|
    requires forall k :: j <= k < j + len ==> ReplaceMatches(t, m)[k] != ' '
    ensures Src(t, m, j).Some? && forall k :: j <= k < j + len ==> Src(t, m, k).Some? && Src(t, m, k).value == Src(t, m, j).value + (k - j)
  {
    if len > 1 {
      SrcRun(t, m, j, len - 1);
      var k := j + len - 1;
      SrcChar(t, m, k);
      SrcStep(t, m, k - 1);
    } else {
      SrcChar(t, m, j);
    }
  }

  /** A blankless pattern found in the output is found in the input, where its first
      character came from. */
  lemma SrcWindow(t: string, m: string -> Option<nat>, j: nat, pat: string)
    requires Matcher(m) && 0 < |pat| && Blankless(pat)
    requires j < |ReplaceMatches(t, m)| && StartsWithAt(ReplaceMatches(t, m), j, pat)
    ensures Src(t, m, j).Some? && StartsWithAt(t, Src(t, m, j).value, pat)
    ensures forall k :: j <= k < j + |pat| ==> Src(t, m, k).Some? && Src(t, m, k).value == Src(t, m, j).value + (k - j)
  {
    var u := ReplaceMatches(t, m);
    forall k | j <= k < j + |pat| ensures u[k] != ' ' {
      assert LowerChar(u[k]) == pat[k - j];
    }
    SrcRun(t, m, j, |pat|);
    var k0 := Src(t, m, j).value;
    assert Src(t, m, j + |pat| - 1).value < |t|;
    forall k | 0 <= k < |pat| ensures LowerChar(t[k0 + k]) == pat[k] {
      SrcChar(t, m, j + k);
      assert t[k0 + k] == u[j + k];
    }
  }

  /** Matching at `j` of a suffix is matching at `i + j` of the whole. */
  lemma StartsShift(r: string, i: nat, j: nat, pat: string)
    requires i <= |r|
    ensures StartsWithAt(r[i..], j, pat) <==> StartsWithAt(r, i + j, pat)
  {
    if StartsWithAt(r[i..], j, pat) {
      forall k | 0 <= k < |pat| ensures LowerChar(r[i + j + k]) == pat[k] {
        assert r[i..][j + k] == r[i + j + k];
      }
    }
    if StartsWithAt(r, i + j, pat) {
      forall k | 0 <= k < |pat| ensures LowerChar(r[i..][j + k]) == pat[k] {
        assert r[i..][j + k] == r[i + j + k];
      }
    }
  }

  /** The opening and closing patterns of a blankless name are blankless. */
  lemma BlockPatternsBlankless(name: string)
    requires Blankless(name)
    ensures Blankless("<" + name) && Blankless("</" + name + ">")
  {
    var open, close := "<" + name, "</" + name + ">";
    assert forall k :: 0 < k < |open| ==> open[k] == name[k - 1];
    assert forall k :: 1 < k < |close| - 1 ==> close[k] == name[k - 2];
  }

  /** A match at the start of `x` of an opening pattern up to its first `>`, followed
      somewhere by a closing pattern. */
  predicate Parts(x: string, open: string, close: string)
  {
    && StartsWithAt(x, 0, open)
    && IndexOf(x, |open|, '>') < |x|
    && FindFrom(x, IndexOf(x, |open|, '>') + 1, close).Some?
  }

  /** A block of `name` is exactly such a match of its two tags. */
  lemma BlockAtParts(x: string, name: string)
    ensures BlockAt(x, name).Some? <==> Parts(x, "<" + name, "</" + name + ">")
  {
  }

  /** A pattern found at or after `from` is found by the search from `from`. */
  lemma FindFromFinds(x: string, from: nat, pat: string, k: nat)
    requires from <= k <= |x| && StartsWithAt(x, k, pat)
    ensures FindFrom(x, from, pat).Some?
  {
  }

  /** A block of the output starts at a kept character, and a block of the input starts
      where that character came from. */
  lemma BlockBack(s: string, name: string, i: nat)
    requires Blankless(name) && i < |StripBlocks(s, name)|
    ensures BlockAt(StripBlocks(s, name)[i..], name).Some? ==>
              Src(s, BlockMatcher(name), i).Some? && BlockAt(s[Src(s, BlockMatcher(name), i).value..], name).Some?
  {
    var bm := BlockMatcher(name);
    var r := StripBlocks(s, name);
    var u := r[i..];
    var open, close := "<" + name, "</" + name + ">";
    BlockAtParts(u, name);
    if Parts(u, open, close) {
      var gt := IndexOf(u, |open|, '>');
      var mc := FindFrom(u, gt + 1, close).value;
      assert StartsWithAt(r, i, open) by { StartsShift(r, i, 0, open); }
      assert StartsWithAt(r, i + mc, close) by { StartsShift(r, i, mc, close); }
      assert r[i + gt] == '>';
      assert Blankless(open) && Blankless(close) by { BlockPatternsBlankless(name); }
      var k0 := BlockBackCopy(s, bm, i, gt, mc, open, close);
      BlockAtParts(s[k0..], name);
    }
  }

  /** The positions of a block found in the output, carried back to the input: the match
      starts at `k0`, where the output's first character came from. */
  lemma BlockBackCopy(s: string, m: string -> Option<nat>, i: nat, gt: nat, mc: nat, open: string, close: string)
    returns (k0: nat)
    requires Matcher(m) && 0 < |open| <= gt < mc && i + mc < |ReplaceMatches(s, m)|
    requires Blankless(open) && Blankless(close) && 0 < |close|
    requires StartsWithAt(ReplaceMatches(s, m), i, open) && ReplaceMatches(s, m)[i + gt] == '>'
    requires StartsWithAt(ReplaceMatches(s, m), i + mc, close)
    ensures Src(s, m, i) == Some(k0) && k0 <= |s| && Parts(s[k0..], open, close)
  {
    var kg, kc;
    k0, kg, kc := BlockPositions(s, m, i, gt, mc, open, close);
    PartsAt(s, k0, kg, kc, open, close);
  }

  /** Where the opening pattern, its `>` and the closing pattern of the output came from. */
  lemma BlockPositions(s: string, m: string -> Option<nat>, i: nat, gt: nat, mc: nat, open: string, close: string)
    returns (k0: nat, kg: nat, kc: nat)
    requires Matcher(m) && 0 < |open| <= gt < mc && i + mc < |ReplaceMatches(s, m)|
    requires Blankless(open) && Blankless(close) && 0 < |close|
    requires StartsWithAt(ReplaceMatches(s, m), i, open) && ReplaceMatches(s, m)[i + gt] == '>'
    requires StartsWithAt(ReplaceMatches(s, m), i + mc, close)
    ensures Src(s, m, i) == Some(k0) && StartsWithAt(s, k0, open)
    ensures k0 + |open| <= kg < kc && StartsWithAt(s, kc, close) && s[kg] == '>'
  {
    SrcWindow(s, m, i, open);
    k0 := Src(s, m, i).value;
    SrcChar(s, m, i + gt);
    kg := Src(s, m, i + gt).value;
    SrcMono(s, m, i + |open| - 1, i + gt);
    SrcWindow(s, m, i + mc, close);
    kc := Src(s, m, i + mc).value;
    SrcMono(s, m, i + gt, i + mc);
  }

  /** An opening pattern at `k0`, a `>` after it and a closing pattern after that make a
      match of the two at `k0`. */
  lemma PartsAt(s: string, k0: nat, kg: nat, kc: nat, open: string, close: string)
    requires StartsWithAt(s, k0, open) && k0 + |open| <= kg < kc && StartsWithAt(s, kc, close) && s[kg] == '>'
    ensures k0 <= |s| && Parts(s[k0..], open, close)
  {
    var s' := s[k0..];
    assert StartsWithAt(s', 0, open) by { StartsShift(s, k0, 0, open); }
    assert s'[kg - k0] == '>';
    var gt' := IndexOf(s', |open|, '>');
    assert gt' <= kg - k0 < kc - k0;
    assert StartsWithAt(s', kc - k0, close) by { StartsShift(s, k0, kc - k0, close); }
    FindFromFinds(s', gt' + 1, close, kc - k0);
  }

  /** When no block starts the input, none starts the output. */
  lemma StripBlocksHead(s: string, name: string)
    requires Blankless(name) && s != [] && BlockAt(s, name).None?
    ensures BlockAt(StripBlocks(s, name), name).None?
  {
    var bm := BlockMatcher(name);
    var r := StripBlocks(s, name);
    assert r == [s[0]] + StripBlocks(s[1..], name);
    assert Src(s, bm, 0) == Some(0);
    assert s[0..] == s && r[0..] == r;
    BlockBack(s, name, 0);
  }

  /** A character in front of a block-free string adds no block when none starts there. */
  lemma BlockFreeCons(c: char, rest: string, name: string)
    requires BlockFree(rest, name) && BlockAt([c] + rest, name).None?
    ensures BlockFree([c] + rest, name)
  {
    var r := [c] + rest;
    forall i | 0 <= i < |r| ensures BlockAt(r[i..], name).None? {
      if i > 0 { assert r[i..] == rest[i - 1..]; } else { assert r[0..] == r; }
    }
  }

  /** No block starts at a blank. */
  lemma NoBlockAtBlank(rest: string, name: string)
    ensures BlockAt(" " + rest, name).None?
  {
    assert LowerChar((" " + rest)[0]) != ("<" + name)[0];
  }

  /** After the blocks of `name` are replaced, none is left: a block that showed up in the
      output would start at a kept character, and a block of the input would start there. */
  lemma {:induction false} StripBlocksBlockFree(s: string, name: string)
    requires Blankless(name)
    ensures BlockFree(StripBlocks(s, name), name)
    decreases |s|
  {
    if s != [] {
      var r := StripBlocks(s, name);
      match BlockAt(s, name)
      case Some(n) =>
        var rest := StripBlocks(s[n..], name);
        assert r == " " + rest;
        StripBlocksBlockFree(s[n..], name);
        NoBlockAtBlank(rest, name);
        BlockFreeCons(' ', rest, name);
      case None =>
        var rest := StripBlocks(s[1..], name);
        assert r == [s[0]] + rest;
        StripBlocksBlockFree(s[1..], name);
        StripBlocksHead(s, name);
        BlockFreeCons(s[0], rest, name);
    }
  }

  /** Length of a match of `/<[^>]+>/` at the start of `s`: a `<`, at least one
      character other than `>`, and the first `>` after it. */
  function TagAt(s: string): (r: Option<nat>)
    ensures r.Some? ==> 2 < r.value <= |s| && s[0] == '<' && s[r.value - 1] == '>'
    ensures r.Some? ==> forall k :: 0 < k < r.value - 1 ==> s[k] != '>'
  {
    if |s| == 0 || s[0] != '<' then None
    else
      var gt := IndexOf(s, 1, '>');
      if gt == |s| || gt == 1 then None else Some(gt + 1)
  }

  /** `s.replace(/<[^>]+>/g, " ")`. */
  function StripTags(s: string): (r: string)
    ensures |r| <= |s|
    decreases |s|
  {
    if s == [] then []
    else
      match TagAt(s)
      case Some(n) => " " + StripTags(s[n..])
      case None => [s[0]] + StripTags(s[1..])
  }

  /** No position of `r` starts something `/<[^>]+>/` would match. */
  predicate TagFree(r: string)
  {
    forall i :: 0 <= i < |r| ==> TagAt(r[i..]).None?
  }

  /** Stripping tags never introduces a `>`. */
  lemma {:induction false} StripTagsNoGt(s: string)
    requires '>' !in s
    ensures '>' !in StripTags(s)
    decreases |s|
  {
    if s != [] {
      assert TagAt(s).None?;
      StripTagsNoGt(s[1..]);
    }
  }

  /** After stripping, no tag is left: every `<` that survives has no `>` after it
      or is followed directly by `>`. */
  lemma {:induction false} StripTagsTagFree(s: string)
    ensures TagFree(StripTags(s))
    decreases |s|
  {
    if s != [] {
      match TagAt(s)
      case Some(n) =>
        var rest := StripTags(s[n..]);
        StripTagsTagFree(s[n..]);
        var r := " " + rest;
        forall i | 0 <= i < |r| ensures TagAt(r[i..]).None? {
          if i > 0 { assert r[i..] == rest[i - 1..]; }
        }
      case None =>
        var rest := StripTags(s[1..]);
        StripTagsTagFree(s[1..]);
        var r := [s[0]] + rest;
        forall i | 0 <= i < |r| ensures TagAt(r[i..]).None? {
          if i > 0 {
            assert r[i..] == rest[i - 1..];
          } else if s[0] == '<' {
            var gt := IndexOf(s, 1, '>');
            if gt == |s| {
              assert '>' !in s[1..];
              StripTagsNoGt(s[1..]);
              assert IndexOf(r, 1, '>') == |r|;
            } else {
              assert gt == 1;
              assert TagAt(s[1..]).None?;
              assert r[1] == '>';
            }
          }
        }
    }
  }

  /** `s.replace(new RegExp(pat, "g"), rep)` for a literal pattern: the leftmost
      occurrences, not overlapping, each replaced once, without rescanning the replacement. */
  function ReplaceAll(s: string, pat: string, rep: string): string
    requires pat != ""
    decreases |s|
  {
    if |s| < |pat| then s
    else if s[..|pat|] == pat then rep + ReplaceAll(s[|pat|..], pat, rep)
    else [s[0]] + ReplaceAll(s[1..], pat, rep)
  }

  /** A string in which the pattern does not occur is left as it is. */
  lemma {:induction false} ReplaceAllAbsent(s: string, pat: string, rep: string)
    requires pat != "" && !Contains(s, pat)
    ensures ReplaceAll(s, pat, rep) == s
    decreases |s|
  {
    if |s| >= |pat| {
      assert !OccursAt(s, pat, 0);
      assert !Contains(s[1..], pat) by {
        forall i | 0 <= i <= |s[1..]| - |pat| ensures !OccursAt(s[1..], pat, i) {
          assert !OccursAt(s, pat, i + 1);
          assert s[1..][i..i + |pat|] == s[i + 1..i + 1 + |pat|];
        }
      }
      ReplaceAllAbsent(s[1..], pat, rep);
    }
  }

  /** The entity decoding of `extractReadableText`, in the source's order; a string without
      `&` holds no entity and comes back as it is. */
  function DecodeEntities(s: string): (r: string)
    ensures '&' !in s ==> r == s
  {
    DecodeWithoutAmp(s);
    var a := ReplaceAll(s, "&nbsp;", " ");
    var b := ReplaceAll(a, "&amp;", "&");
    var c := ReplaceAll(b, "&quot;", "\"");
    var d := ReplaceAll(c, "&#39;", "'");
    var e := ReplaceAll(d, "&lt;", "<");
    ReplaceAll(e, "&gt;", ">")
  }

  /** Every character of the output is a blank or a character of the input. */
  lemma {:induction false} ReplaceMatchesChars(s: string, m: string -> Option<nat>)
    requires Matcher(m)
    ensures forall c :: c in ReplaceMatches(s, m) ==> c == ' ' || c in s
    decreases |s|
  {
    if s != [] {
      match m(s)
      case Some(n) =>
        ReplaceMatchesChars(s[n..], m);
        assert forall c :: c in s[n..] ==> c in s;
      case None =>
        ReplaceMatchesChars(s[1..], m);
        assert forall c :: c in s[1..] ==> c in s;
    }
  }

  /** Every character left by `StripTags` is a blank or a character of the input. */
  lemma {:induction false} StripTagsChars(s: string)
    ensures forall c :: c in StripTags(s) ==> c == ' ' || c in s
    decreases |s|
  {
    if s != [] {
      match TagAt(s)
      case Some(n) =>
        StripTagsChars(s[n..]);
        assert forall c :: c in s[n..] ==> c in s;
      case None =>
        StripTagsChars(s[1..]);
        assert forall c :: c in s[1..] ==> c in s;
    }
  }

  /** With no `c` from `from` up to `to`, the search for `c` may as well start at `to`. */
  lemma {:induction false} IndexOfSkip(s: string, from: nat, to: nat, c: char)
    requires from <= to <= |s|
    requires forall k :: from <= k < to ==> s[k] != c
    ensures IndexOf(s, from, c) == IndexOf(s, to, c)
    decreases (to as int) - (from as int)
  {
    if from < to {
      IndexOfSkip(s, from + 1, to, c);
    }
  }

  /** A name that can open a tag: not empty and without `>`. */
  predicate TagName(name: string) {
    name != [] && forall k :: 0 <= k < |name| ==> name[k] != '>'
  }

  /** A block is in particular a tag, when the name starts with neither `>` nor a blank
      and has no `>` in it: its opening tag is a `<`, some characters other than `>`, and a `>`. */
  lemma BlockIsTag(x: string, name: string)
    requires TagName(name)
    ensures BlockAt(x, name).Some? ==> TagAt(x).Some?
  {
    var open := "<" + name;
    BlockAtParts(x, name);
    if BlockAt(x, name).Some? {
      assert LowerChar(x[0]) == open[0];
      forall k | 1 <= k < |open| ensures x[k] != '>' {
        assert LowerChar(x[k]) == open[k] == name[k - 1];
      }
      IndexOfSkip(x, 1, |open|, '>');
    }
  }

  /** A string without tags holds no block either. */
  lemma TagFreeBlockFree(r: string, name: string)
    requires TagName(name)
    requires TagFree(r)
    ensures BlockFree(r, name)
  {
    forall i | 0 <= i < |r| ensures BlockAt(r[i..], name).None? {
      BlockIsTag(r[i..], name);
    }
  }

  /** A pattern that starts with `&` does not occur in a string without `&`. */
  lemma AmpPatternAbsent(s: string, pat: string)
    requires pat != "" && pat[0] == '&' && '&' !in s
    ensures !Contains(s, pat)
  {
    forall i | 0 <= i <= |s| - |pat| ensures !OccursAt(s, pat, i) {
      assert s[i] in s;
    }
  }

  /** None of the six entities occurs in a string without `&`, so each replacement is the
      identity on it. */
  lemma DecodeWithoutAmp(s: string)
    ensures '&' !in s ==>
              && ReplaceAll(s, "&nbsp;", " ") == s && ReplaceAll(s, "&amp;", "&") == s
              && ReplaceAll(s, "&quot;", "\"") == s && ReplaceAll(s, "&#39;", "'") == s
              && ReplaceAll(s, "&lt;", "<") == s && ReplaceAll(s, "&gt;", ">") == s
  {
    if '&' in s {
      return;
    }
    AmpPatternAbsent(s, "&nbsp;");
    ReplaceAllAbsent(s, "&nbsp;", " ");
    AmpPatternAbsent(s, "&amp;");
    ReplaceAllAbsent(s, "&amp;", "&");
    AmpPatternAbsent(s, "&quot;");
    ReplaceAllAbsent(s, "&quot;", "\"");
    AmpPatternAbsent(s, "&#39;");
    ReplaceAllAbsent(s, "&#39;", "'");
    AmpPatternAbsent(s, "&lt;");
    ReplaceAllAbsent(s, "&lt;", "<");
    AmpPatternAbsent(s, "&gt;");
    ReplaceAllAbsent(s, "&gt;", ">");
  }

  /** Once the tags are gone, so is every script block and every style block. */
  lemma StripTagsBlockFree(b: string)
    ensures TagFree(StripTags(b))
    ensures BlockFree(StripTags(b), "script") && BlockFree(StripTags(b), "style")
  {
    StripTagsTagFree(b);
    assert TagName("script");
    TagFreeBlockFree(StripTags(b), "script");
    assert TagName("style");
    TagFreeBlockFree(StripTags(b), "style");
  }

  /** Every character of the text before entities are decoded is a blank or a character
      of the page. */
  lemma ReadableTextChars(html: string)
    ensures forall c :: c in StripTags(StripBlocks(StripBlocks(html, "script"), "style")) ==>
              c == ' ' || c in html
  {
    var a := StripBlocks(html, "script");
    var b := StripBlocks(a, "style");
    ReplaceMatchesChars(html, BlockMatcher("script"));
    ReplaceMatchesChars(a, BlockMatcher("style"));
    StripTagsChars(b);
  }

  /** `extractReadableText(html)`: "" for falsy input; otherwise script blocks, then style
      blocks, then every tag become one blank each, and the entities are decoded. A page
      without `&` comes out with no tag, no script block and no style block left. */
  function ExtractReadableText(html: Option<string>): (r: string)
    ensures (html.None? || html.value == "") ==> r == ""
    ensures html.Some? && html.value != "" && '&' !in html.value ==>
              TagFree(r) && BlockFree(r, "script") && BlockFree(r, "style")
  {
    if html.None? || html.value == "" then ""
    else
      var b := StripBlocks(StripBlocks(html.value, "script"), "style");
      var t := StripTags(b);
      StripTagsBlockFree(b);
      ReadableTextChars(html.value);
      assert '&' !in html.value ==> '&' !in t;
      DecodeEntities(t)
  }

  /** The text between the tags, before entities are decoded, contains no tag. */
  lemma ReadableTextIsTagFree(html: string)
    ensures TagFree(StripTags(StripBlocks(StripBlocks(html, "script"), "style")))
  {
    StripTagsTagFree(StripBlocks(StripBlocks(html, "script"), "style"));
  }

  /** The `text` field of a request payload: absent, a string, or some other JSON value. */
  datatype TextValue = Absent | Text(s: string) | NonString(truthy: bool)

  /** `loadTextFromInput(payload)`. `fetched` is the page body the network returned for
      `url`, or `None` when the fetch failed. `None` as the result means the call throws:
      a truthy non-string fallback text has no `replace` method. */
  function LoadTextFromInput(url: Option<string>, text: TextValue, fetched: Option<string>): (r: Option<string>)
    ensures r.Some? ==> |r.value| <= MaxSourceChars
    ensures r.Some? ==> NoDoubleSpace(r.value) && SpacesAreBlanks(r.value)
    ensures OrElse(url, "") == "" ==> r.Some?
  {
    var content: Option<string> :=
      if OrElse(url, "") != "" then
        match fetched
        case Some(page) => Some(ExtractReadableText(Some(page)))
        case None =>
          match text
          case Text(t) => Some(t)
          case Absent => Some("")
          case NonString(truthy) => if truthy then None else Some("")
      else
        match text
        case Text(t) => Some(t)
        case _ => Some("");
    match content
    case None => None
    case Some(c) => Some(LimitLength(Some(SanitizeWhitespace(Some(c))), MaxSourceChars))
  }

  /** Without a url, string text is sanitised and cut to length, anything else gives "". */
  lemma LoadWithoutUrl(text: TextValue, fetched: Option<string>)
    ensures LoadTextFromInput(None, text, fetched)
            == Some(if text.Text? then LimitLength(Some(SanitizeWhitespace(Some(text.s))), MaxSourceChars) else "")
  {
    if !text.Text? {
      assert SanitizeWhitespace(Some("")) == "";
    }
  }

  /** A string in which the first character of the pattern does not occur is left as it is. */
  lemma {:induction false} ReplaceAllNoHead(s: string, pat: string, rep: string)
    requires pat != "" && pat[0] !in s
    ensures ReplaceAll(s, pat, rep) == s
    decreases |s|
  {
    if |s| >= |pat| {
      assert s[..|pat|][0] == s[0];
      ReplaceAllNoHead(s[1..], pat, rep);
    }
  }

  /** Entities are decoded in a fixed order, `&amp;` before `&lt;`: a double-encoded `<`
      decodes fully. */
  lemma DecodeDoubleEncodedLt()
    ensures DecodeEntities("&amp;lt;") == "<"
  {
    var s := "&amp;lt;";
    assert s[..6] == "&amp;l" && s[1..] == "amp;lt;";
    ReplaceAllNoHead("amp;lt;", "&nbsp;", " ");
    assert ReplaceAll(s, "&nbsp;", " ") == s;
    assert s[..5] == "&amp;" && s[5..] == "lt;";
    ReplaceAllNoHead("lt;", "&amp;", "&");
    assert ReplaceAll(s, "&amp;", "&") == "&lt;";
    var u := "&lt;";
    assert ReplaceAll(u, "&quot;", "\"") == u;
    assert u[..4] == "&lt;" && u[4..] == "";
    assert ReplaceAll(u, "&#39;", "'") == u;
    assert ReplaceAll(u, "&lt;", "<") == "<";
    assert ReplaceAll("<", "&gt;", ">") == "<";
  }

  /** A string that differs from the pattern at index `k` of its head, and holds the
      pattern's first character nowhere else, is left as it is. */
  lemma ReplaceAllMiss(s: string, pat: string, rep: string, k: nat)
    requires pat != "" && s != [] && pat[0] !in s[1..]
    requires k < |pat| && k < |s| && s[k] != pat[k]
    ensures ReplaceAll(s, pat, rep) == s
  {
    ReplaceAllNoHead(s[1..], pat, rep);
    if |s| >= |pat| {
      assert s[..|pat|][k] != pat[k];
      assert s == [s[0]] + s[1..];
    }
  }

  /** `&nbsp;` is decoded before `&amp;`: a double-encoded blank decodes only once. */
  lemma DecodeDoubleEncodedNbsp()
    ensures DecodeEntities("&amp;nbsp;") == "&nbsp;"
  {
    NbspStep1();
    NbspStep2();
    NbspUntouchedByLaterEntities();
  }

  /** `&nbsp;` does not occur in the double-encoded blank. */
  lemma NbspStep1()
    ensures ReplaceAll("&amp;nbsp;", "&nbsp;", " ") == "&amp;nbsp;"
  {
    var t := "&amp;nbsp;";
    assert t[1..] == "amp;nbsp;" && t[1] == 'a';
    ReplaceAllMiss(t, "&nbsp;", " ", 1);
  }

  /** Decoding `&amp;` leaves a single-encoded blank. */
  lemma NbspStep2()
    ensures ReplaceAll("&amp;nbsp;", "&amp;", "&") == "&nbsp;"
  {
    var t := "&amp;nbsp;";
    assert t[..5] == "&amp;" && t[5..] == "nbsp;";
    ReplaceAllNoHead("nbsp;", "&amp;", "&");
  }

  /** "&nbsp;" contains none of the entities decoded after `&amp;`. */
  lemma NbspUntouchedByLaterEntities()
    ensures ReplaceAll("&nbsp;", "&quot;", "\"") == "&nbsp;"
    ensures ReplaceAll("&nbsp;", "&#39;", "'") == "&nbsp;"
    ensures ReplaceAll("&nbsp;", "&lt;", "<") == "&nbsp;"
    ensures ReplaceAll("&nbsp;", "&gt;", ">") == "&nbsp;"
  {
    var u := "&nbsp;";
    assert u[1..] == "nbsp;" && u[1] == 'n';
    ReplaceAllMiss(u, "&quot;", "\"", 1);
    ReplaceAllMiss(u, "&#39;", "'", 1);
    ReplaceAllMiss(u, "&lt;", "<", 1);
    ReplaceAllMiss(u, "&gt;", ">", 1);
  }

}
