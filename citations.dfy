/**
 The citations route (src/app/api/citations/route.js): the URLs found in the source text
 decide whether the model is asked for MLA citations of those URLs or for suggestions of
 how to verify the text. The language model's replies are parameters of the model.
 */
module Citations {

  import opened Wrappers
  import opened Strings
  import Seqs
  import TextUtil

  /** At most this many URLs are turned into citations. */
  const MaxUrls: nat := 10

  /** A character of `[\w.-]`, the host part of the URL pattern. */
  predicate IsHostChar(c: char)
  {
    ('a' <= c <= 'z') || ('A' <= c <= 'Z') || ('0' <= c <= '9') || c == '_' || c == '.' || c == '-'
  }

  /** A character of `[\w\-._~:/?#[\]@!$&'()*+,;=%]`, the path part of the URL pattern. */
  predicate IsPathChar(c: char)
  {
    IsHostChar(c) || c in "~:/?#[]@!$&'()*+,;=%"
  }

  /** The end of the run of characters satisfying `p` that starts at `from`. */
  function RunEnd(s: string, from: nat, p: char -> bool): (k: nat)
    requires from <= |s|
    ensures from <= k <= |s|
    ensures forall i :: from <= i < k ==> p(s[i])
    ensures k < |s| ==> !p(s[k])
    decreases |s| - from
  {
    if from == |s| || !p(s[from]) then from else RunEnd(s, from + 1, p)
  }

  /** Length of `/https?:\/\//i` at the start of `s`. */
  function SchemeLength(s: string): (r: Option<nat>)
    ensures r.Some? ==> (r.value == 7 || r.value == 8) && r.value <= |s|
  {
    if TextUtil.StartsWithAt(s, 0, "https://") then Some(8)
    else if TextUtil.StartsWithAt(s, 0, "http://") then Some(7)
    else None
  }

  /** Length of the (greedy) match of the URL pattern at the start of `s`. */
  function UrlAt(s: string): (r: Option<nat>)
    ensures r.Some? ==> 0 < r.value <= |s|
  {
    match SchemeLength(s)
    case None => None
    case Some(k) =>
      var h := RunEnd(s, k, IsHostChar);
      if h == k then None
      else if h < |s| && s[h] == '/' then Some(RunEnd(s, h + 1, IsPathChar))
      else Some(h)
  }

  /** What every match of the pattern looks like: `http://` or `https://` in any case,
      then at least one host character, then only path characters. */
  predicate IsUrl(u: string)
  {
    || (TextUtil.StartsWithAt(u, 0, "http://") && 7 < |u| && IsHostChar(u[7])
        && forall i :: 7 <= i < |u| ==> IsPathChar(u[i]))
    || (TextUtil.StartsWithAt(u, 0, "https://") && 8 < |u| && IsHostChar(u[8])
        && forall i :: 8 <= i < |u| ==> IsPathChar(u[i]))
  }

  /** `text.match(urlRegex) || []`: every match, left to right, the scan resuming after each. */
  function Scan(s: string): (r: seq<string>)
    ensures forall e :: e in r ==> IsUrl(e)
    decreases |s|
  {
    if s == [] then []
    else
      match UrlAt(s)
      case Some(n) => UrlAtIsUrl(s); [s[..n]] + Scan(s[n..])
      case None => Scan(s[1..])
  }

  /** A match found at the start of `s` has the shape of a URL. */
  lemma UrlAtIsUrl(s: string)
    requires UrlAt(s).Some?
    ensures IsUrl(s[..UrlAt(s).value])
  {
    var n := UrlAt(s).value;
    var u := s[..n];
    var k := SchemeLength(s).value;
    var h := RunEnd(s, k, IsHostChar);
    assert forall i :: k <= i < n ==> IsPathChar(s[i]);
    if k == 8 {
      assert TextUtil.StartsWithAt(u, 0, "https://");
    } else {
      assert TextUtil.StartsWithAt(u, 0, "http://");
    }
  }

  /** What occurs in a suffix of `s` occurs in `s`. */
  lemma ContainsInSuffix(s: string, k: nat, e: string)
    requires k <= |s| && Contains(s[k..], e)
    ensures Contains(s, e)
  {
    var i :| 0 <= i <= |s[k..]| - |e| && OccursAt(s[k..], e, i);
    assert s[k..][i..i + |e|] == s[k + i..k + i + |e|];
    assert OccursAt(s, e, k + i);
  }

  /** Every match is a URL that occurs in the text. */
  lemma {:induction false} ScanFindsUrls(s: string)
    ensures forall e :: e in Scan(s) ==> IsUrl(e) && Contains(s, e)
    decreases |s|
  {
    if s != [] {
      match UrlAt(s)
      case Some(n) =>
        ScanFindsUrls(s[n..]);
        UrlAtIsUrl(s);
        assert OccursAt(s, s[..n], 0);
        forall e | e in Scan(s[n..]) ensures Contains(s, e) {
          ContainsInSuffix(s, n, e);
        }
      case None =>
        ScanFindsUrls(s[1..]);
        forall e | e in Scan(s[1..]) ensures Contains(s, e) {
          ContainsInSuffix(s, 1, e);
        }
    }
  }

  /** `extractUrls(text)`: the distinct matches in order of first appearance, at most ten. */
  function ExtractUrls(text: Option<string>): (r: seq<string>)
    ensures |r| <= MaxUrls
    ensures Seqs.Distinct(r)
  {
    if text.None? || text.value == "" then []
    else Seqs.Take(Seqs.Dedup(Scan(text.value)), MaxUrls)
  }

  /** Every extracted URL has the shape of a URL and occurs in the text. */
  lemma ExtractedAreUrlsOfText(text: string)
    ensures forall e :: e in ExtractUrls(Some(text)) ==> IsUrl(e) && Contains(text, e)
  {
    ScanFindsUrls(text);
    if text != "" {
      var d := Seqs.Dedup(Scan(text));
      forall e | e in ExtractUrls(Some(text)) ensures e in Scan(text) {
        var i :| 0 <= i < |ExtractUrls(Some(text))| && ExtractUrls(Some(text))[i] == e;
        assert e == d[i];
      }
    }
  }

  /** With at most ten distinct matches none is dropped; with more, exactly ten are kept. */
  lemma ExtractKeepsAllOrTen(text: string)
    requires text != ""
    ensures |Seqs.Dedup(Scan(text))| <= MaxUrls ==>
              forall e :: e in ExtractUrls(Some(text)) <==> e in Scan(text)
    ensures |Seqs.Dedup(Scan(text))| > MaxUrls ==> |ExtractUrls(Some(text))| == MaxUrls
  {
  }

  /** The extracted URLs keep the order in which they first appear in the text. */
  lemma ExtractKeepsOrder(text: string, i: nat, j: nat)
    requires i < j < |ExtractUrls(Some(text))|
    ensures ExtractUrls(Some(text))[i] in Scan(text) && ExtractUrls(Some(text))[j] in Scan(text)
    ensures Seqs.FirstIndex(Scan(text), ExtractUrls(Some(text))[i])
            < Seqs.FirstIndex(Scan(text), ExtractUrls(Some(text))[j])
  {
    Seqs.DedupOrder(Scan(text), i, j);
  }

  /** The JSON body the route answers with. */
  datatype CitationsReply =
    | Suggestions(suggestions: string)
    | Citations(citations: seq<string>, formatted: string)
    | Failure(status: nat, error: string)

  /** `completion.choices?.[0]?.message?.content?.trim() || ""`. */
  function ReplyText(content: Option<string>): (r: string)
    ensures content.None? ==> r == ""
    ensures content.Some? ==> r == Trim(content.value)
  {
    match content
    case None => ""
    case Some(c) => Trim(c)
  }

  /** The reply once the source text is loaded: suggestions when it holds no URL,
      otherwise citations of its URLs. */
  function ReplyFor(source: string, suggestionReply: Option<string>, citationReply: Option<string>): (r: CitationsReply)
    ensures !r.Failure?
    ensures r.Citations? ==> 0 < |r.citations| <= MaxUrls && Seqs.Distinct(r.citations)
  {
    var urls := ExtractUrls(Some(source));
    if |urls| == 0 then Suggestions(ReplyText(suggestionReply))
    else Citations(urls, ReplyText(citationReply))
  }

  /** The branch is chosen by the URLs of the source alone: citations exactly when at least
      one URL occurs in it, and then the citations are those URLs. */
  lemma ReplyBranch(source: string, sr: Option<string>, cr: Option<string>)
    ensures var r := ReplyFor(source, sr, cr);
            && (r.Citations? <==> Scan(source) != [])
            && (r.Suggestions? <==> Scan(source) == [])
            && (r.Citations? ==> r.citations == ExtractUrls(Some(source)) && r.formatted == ReplyText(cr))
            && (r.Suggestions? ==> r.suggestions == ReplyText(sr))
  {
    if Scan(source) != [] {
      assert Scan(source)[0] in Seqs.Dedup(Scan(source));
      assert source != "";
    }
  }

  /** The route's `POST` for a request without a network error in the model call: the
      source is loaded as `loadTextFromInput` does; `suggestionReply` and `citationReply`
      are what the model answers when asked for suggestions or for citations. */
  function CitationsRoute(apiKey: Option<string>, url: Option<string>, text: TextUtil.TextValue,
                          fetched: Option<string>, suggestionReply: Option<string>,
                          citationReply: Option<string>): (r: CitationsReply)
    ensures OrElse(apiKey, "") == "" ==> r == Failure(500, MissingKeyError)
    ensures OrElse(apiKey, "") != "" && TextUtil.LoadTextFromInput(url, text, fetched).None? ==>
              r == Failure(500, ProcessingError)
    ensures OrElse(apiKey, "") != "" && TextUtil.LoadTextFromInput(url, text, fetched).Some? ==>
              r == ReplyFor(TextUtil.LoadTextFromInput(url, text, fetched).value, suggestionReply, citationReply)
  {
    if OrElse(apiKey, "") == "" then Failure(500, MissingKeyError)
    else
      match TextUtil.LoadTextFromInput(url, text, fetched)
      case None => Failure(500, ProcessingError)
      case Some(source) => ReplyFor(source, suggestionReply, citationReply)
  }

  const MissingKeyError := "Server is missing OPENAI_API_KEY. Add it to web/.env.local and restart the server."
  const ProcessingError := "Failed to process citations."

}
