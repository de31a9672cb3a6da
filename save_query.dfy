/**
 The save form (src/components/SaveQuery.js): a title, comma-separated tags and a folder,
 turned into the body of `POST /api/saved-queries`. The server's answer is a parameter.
 */
module SaveQuery {

  import opened Wrappers
  import opened Strings
  import Seqs
  import SavedQueryList

  /** How much of the result is stored. */
  const MaxResultChars: nat := 500

  const TitleRequired := "Please enter a title for your saved query"
  const SaveFailed := "Failed to save query"

  /** `.map(tag => tag.trim())`. */
  function TrimAll(parts: seq<string>): (r: seq<string>)
    ensures |r| == |parts|
    ensures forall i :: 0 <= i < |parts| ==> r[i] == Trim(parts[i])
  {
    seq(|parts|, i requires 0 <= i < |parts| => Trim(parts[i]))
  }

  /** `tags.split(',').map(tag => tag.trim()).filter(tag => tag)`. */
  function ParseTags(input: string): (r: seq<string>)
    ensures forall t :: t in r ==> t != "" && !IsSpace(t[0]) && !IsSpace(t[|t| - 1]) && ',' !in t
    ensures forall t :: t in r <==> t != "" && exists p :: p in Split(input, ',') && t == Trim(p)
    ensures |r| <= |Split(input, ',')|
  {
    var parts := Split(input, ',');
    var trimmed := TrimAll(parts);
    assert forall t :: t in trimmed ==> ',' !in t by {
      forall i | 0 <= i < |trimmed| ensures ',' !in trimmed[i] {
        assert parts[i] in parts;
        TrimSubset(parts[i]);
      }
    }
    assert forall t :: t in trimmed <==> exists p :: p in parts && t == Trim(p) by {
      forall t | t in trimmed ensures exists p :: p in parts && t == Trim(p) {
        var i :| 0 <= i < |trimmed| && trimmed[i] == t;
        assert parts[i] in parts;
      }
      forall p | p in parts ensures Trim(p) in trimmed {
        var i :| 0 <= i < |parts| && parts[i] == p;
        assert trimmed[i] == Trim(p);
      }
    }
    Seqs.Filter(trimmed, (t: string) => t != "")
  }

  /** A piece without a comma gives its trimmed text as the one tag, or none when blank. */
  lemma ParseOnePiece(piece: string)
    requires ',' !in piece
    ensures ParseTags(piece) == if Trim(piece) == "" then [] else [Trim(piece)]
  {
    SplitNoSeparator(piece, ',');
    assert TrimAll([piece]) == [Trim(piece)];
    assert Seqs.Filter([Trim(piece)], (t: string) => t != "") == if Trim(piece) == "" then [] else [Trim(piece)];
  }

  /** The tags of two comma-separated parts are the tags of the first followed by those of
      the second: with `ParseOnePiece`, the tags are the trimmed non-blank pieces in order. */
  lemma ParseAroundComma(a: string, b: string)
    ensures ParseTags(a + [','] + b) == ParseTags(a) + ParseTags(b)
  {
    SplitAround(a, b, ',');
    var pa, pb := Split(a, ','), Split(b, ',');
    assert TrimAll(pa + pb) == TrimAll(pa) + TrimAll(pb);
    Seqs.FilterAppend(TrimAll(pa), TrimAll(pb), (t: string) => t != "");
  }

  /** Tags that are non-empty, unpadded and free of commas survive a join with "," and
      the parse: the input field round-trips. */
  lemma ParseJoinedTags(tags: seq<string>)
    requires forall t :: t in tags ==> t != "" && !IsSpace(t[0]) && !IsSpace(t[|t| - 1]) && ',' !in t
    ensures ParseTags(Join(tags, ",")) == tags
  {
    if tags == [] {
      assert Split("", ',') == [""];
      assert TrimAll([""]) == [""];
    } else {
      SplitJoin(tags, ',');
      forall i | 0 <= i < |tags| ensures Trim(tags[i]) == tags[i] {
        assert tags[i] in tags;
        TrimUnpadded(tags[i]);
      }
      assert TrimAll(tags) == tags;
      Seqs.FilterAll(tags, (t: string) => t != "");
    }
  }

  /** `result ? result.substring(0, 500) + '...' : null`: the marker is added even to a
      short result. */
  function StoredResult(result: Option<string>): (r: Option<string>)
    ensures r.None? <==> result.None? || result.value == ""
    ensures r.Some? ==> var n := |r.value| - 3;
              && |r.value| >= 3 && r.value[n..] == "..."
              && n == (if |result.value| < MaxResultChars then |result.value| else MaxResultChars)
              && r.value[..n] == result.value[..n]
  {
    if result.None? || result.value == "" then None
    else Some(Seqs.Take(result.value, MaxResultChars) + "...")
  }

  /** `folder.trim() || null`. */
  function StoredFolder(folder: string): (r: Option<string>)
    ensures r.None? <==> Trim(folder) == ""
    ensures r.Some? ==> r.value == Trim(folder) && !IsSpace(r.value[0]) && !IsSpace(r.value[|r.value| - 1])
  {
    if Trim(folder) == "" then None else Some(Trim(folder))
  }

  /** The body of the request. */
  datatype SaveRequest = SaveRequest(
    title: string,
    query: string,
    mode: string,
    url: string,
    result: Option<string>,
    tags: seq<string>,
    folder: Option<string>)

  /** The request for the form's fields, or `None` when the title is blank. */
  function BuildRequest(title: string, tags: string, folder: string,
                        query: string, mode: string, url: string, result: Option<string>): (r: Option<SaveRequest>)
    ensures r.None? <==> Trim(title) == ""
    ensures r.Some? ==> r.value.title != "" && r.value.title == Trim(title)
    ensures r.Some? ==> r.value.tags == ParseTags(tags) && r.value.folder == StoredFolder(folder)
    ensures r.Some? ==> r.value.result == StoredResult(result)
    ensures r.Some? ==> r.value.query == query && r.value.mode == mode && r.value.url == url
  {
    if Trim(title) == "" then None
    else Some(SaveRequest(Trim(title), query, mode, url, StoredResult(result), ParseTags(tags), StoredFolder(folder)))
  }

  /** Whether the Save button is enabled. */
  predicate CanSave(isSaving: bool, title: string)
  {
    !isSaving && Trim(title) != ""
  }

  /** An enabled button always leads to a request. */
  lemma EnabledButtonSends(isSaving: bool, title: string, tags: string, folder: string,
                           query: string, mode: string, url: string, result: Option<string>)
    ensures CanSave(isSaving, title) ==> BuildRequest(title, tags, folder, query, mode, url, result).Some?
    ensures !CanSave(false, title) ==> BuildRequest(title, tags, folder, query, mode, url, result).None?
  {
  }

  /** How the request ended. */
  datatype SaveOutcome =
    | Saved(savedQuery: SavedQueryList.SavedQuery)
    | Rejected(error: Option<string>)
    | Threw

  /** What the form does outside its own state, in order. */
  datatype Effect = Alert(message: string) | OnSave(savedQuery: SavedQueryList.SavedQuery) | OnClose

  /** After a request: `onSave(savedQuery)` then `onClose()` on success, otherwise an alert
      with the server's error or the generic message. */
  function OutcomeEffects(outcome: SaveOutcome): (r: seq<Effect>)
    ensures outcome.Saved? ==> r == [OnSave(outcome.savedQuery), OnClose]
    ensures outcome.Rejected? ==> r == [Alert(OrElse(outcome.error, SaveFailed))]
    ensures outcome.Threw? ==> r == [Alert(SaveFailed)]
  {
    match outcome
    case Saved(saved) => [OnSave(saved), OnClose]
    case Rejected(error) => [Alert(OrElse(error, SaveFailed))]
    case Threw => [Alert(SaveFailed)]
  }

  class SaveForm {

    var title: string
    var tags: string
    var folder: string
    var isSaving: bool

    constructor ()
      ensures title == "" && tags == "" && folder == "" && !isSaving
    {
      title, tags, folder, isSaving := "", "", "", false;
    }

    /** `handleSave` with the props of the form and the outcome of the request. */
    method HandleSave(query: string, mode: string, url: string, result: Option<string>, outcome: SaveOutcome)
      returns (request: Option<SaveRequest>, effects: seq<Effect>)
      modifies this`title, this`tags, this`folder, this`isSaving
      ensures request == BuildRequest(old(title), old(tags), old(folder), query, mode, url, result)
      ensures request.None? ==> effects == [Alert(TitleRequired)] && isSaving == old(isSaving)
      ensures request.Some? ==> effects == OutcomeEffects(outcome) && !isSaving
      ensures request.Some? && outcome.Saved? ==> title == "" && tags == "" && folder == ""
      ensures request.None? || !outcome.Saved? ==> title == old(title) && tags == old(tags) && folder == old(folder)
    {
      request := BuildRequest(title, tags, folder, query, mode, url, result);
      if request.None? {
        effects := [Alert(TitleRequired)];
      } else {
        effects := Send(outcome);
      }
    }

    /** The part of `handleSave` after the title check: the request is in flight while
        `isSaving` holds; a saved query clears the form. */
    method Send(outcome: SaveOutcome) returns (effects: seq<Effect>)
      modifies this`title, this`tags, this`folder, this`isSaving
      ensures effects == OutcomeEffects(outcome) && !isSaving
      ensures outcome.Saved? ==> title == "" && tags == "" && folder == ""
      ensures !outcome.Saved? ==> title == old(title) && tags == old(tags) && folder == old(folder)
    {
      isSaving := true;
      effects := OutcomeEffects(outcome);
      if outcome.Saved? {
        title := "";
        tags := "";
        folder := "";
      }
      isSaving := false;
    }

    /** `handleKeyPress`: Enter without Shift saves; any other key does nothing. */
    method HandleKeyPress(key: string, shiftKey: bool, query: string, mode: string, url: string,
                          result: Option<string>, outcome: SaveOutcome)
      returns (saved: bool, request: Option<SaveRequest>, effects: seq<Effect>)
      modifies this`title, this`tags, this`folder, this`isSaving
      ensures saved <==> key == "Enter" && !shiftKey
      ensures saved ==> request == BuildRequest(old(title), old(tags), old(folder), query, mode, url, result)
      ensures !saved ==> request.None? && effects == [] && title == old(title) && tags == old(tags)
                         && folder == old(folder) && isSaving == old(isSaving)
    {
      saved := key == "Enter" && !shiftKey;
      if saved {
        request, effects := HandleSave(query, mode, url, result, outcome);
      } else {
        request, effects := None, [];
      }
    }
  }

}
