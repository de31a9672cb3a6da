/**
 The saved-query list operations shared by the sidebar (src/components/SavedQueriesSidebar.js),
 the modal list (src/components/SavedQueries.js) and the library panel
 (src/components/QueryLibraryPanel.js): update by id, search and filter, the
 favourites-then-newest order, and the folder list.
 */
module SavedQueryList {

  import opened Wrappers
  import opened Strings
  import Seqs
  import Sorting

  /** A saved query as the list holds it; `updatedAt` is a timestamp. */
  datatype SavedQuery = SavedQuery(
    id: string,
    title: string,
    query: string,
    mode: string,
    url: Option<string>,
    folder: Option<string>,
    isFavorite: bool,
    updatedAt: int)

  /** How a request to the server ended: `response.ok`, a response that is not ok, or a
      thrown error. */
  datatype Outcome = Ok | NotOk | Threw

  /** The keys of the JSON body of `GET /api/saved-queries` that the components read. */
  datatype ListBody = ListBody(savedQueries: Option<seq<SavedQuery>>, queries: Option<seq<SavedQuery>>)

  /** The successful answer of `GET /api/saved-queries`: `{ savedQueries }`. */
  function RouteListBody(qs: seq<SavedQuery>): (b: ListBody)
    ensures b.savedQueries == Some(qs) && b.queries.None?
  {
    ListBody(Some(qs), None)
  }

  // ---------------------------------------------------------------------------
  // Updates by id, applied once the server answered with success

  /** `prev.filter(query => query.id !== id)`. */
  function DeleteById(qs: seq<SavedQuery>, id: string): (r: seq<SavedQuery>)
    ensures forall q :: q in r <==> q in qs && q.id != id
    ensures |r| <= |qs|
  {
    Seqs.Filter(qs, (q: SavedQuery) => q.id != id)
  }

  /** Deleting an id no query has changes nothing; deleting twice is deleting once. */
  lemma DeleteAbsentOrTwice(qs: seq<SavedQuery>, id: string)
    ensures (forall q :: q in qs ==> q.id != id) ==> DeleteById(qs, id) == qs
    ensures DeleteById(DeleteById(qs, id), id) == DeleteById(qs, id)
  {
    if forall q :: q in qs ==> q.id != id {
      Seqs.FilterAll(qs, (q: SavedQuery) => q.id != id);
    }
    Seqs.FilterAll(DeleteById(qs, id), (q: SavedQuery) => q.id != id);
  }

  /** Deleting keeps the other queries in their order: deleting from a concatenation
      deletes from each part. */
  lemma DeleteSplits(a: seq<SavedQuery>, b: seq<SavedQuery>, id: string)
    ensures DeleteById(a + b, id) == DeleteById(a, id) + DeleteById(b, id)
  {
    Seqs.FilterAppend(a, b, (q: SavedQuery) => q.id != id);
  }

  /** `prev.map(q => q.id === id ? { ...q, isFavorite: !currentFavorite } : q)`: the flag
      shown on the button is negated, on the matching entries only. */
  function SetFavorite(qs: seq<SavedQuery>, id: string, currentFavorite: bool): (r: seq<SavedQuery>)
    ensures |r| == |qs|
    ensures forall i :: 0 <= i < |qs| && qs[i].id == id ==> r[i] == qs[i].(isFavorite := !currentFavorite)
    ensures forall i :: 0 <= i < |qs| && qs[i].id != id ==> r[i] == qs[i]
  {
    seq(|qs|, i requires 0 <= i < |qs| => if qs[i].id == id then qs[i].(isFavorite := !currentFavorite) else qs[i])
  }

  /** Toggling an entry shown with its current flag, and then toggling it again as it is
      shown afterwards, gives back the list. */
  lemma ToggleTwice(qs: seq<SavedQuery>, id: string, currentFavorite: bool)
    requires forall q :: q in qs && q.id == id ==> q.isFavorite == currentFavorite
    ensures SetFavorite(SetFavorite(qs, id, currentFavorite), id, !currentFavorite) == qs
  {
    var once := SetFavorite(qs, id, currentFavorite);
    var twice := SetFavorite(once, id, !currentFavorite);
    forall i | 0 <= i < |qs| ensures twice[i] == qs[i] {
      if qs[i].id == id {
        assert qs[i] in qs;
      }
    }
  }

  /** `e.target.value || null`: the "No Folder" option is the empty value. */
  function FolderChoice(value: string): (r: Option<string>)
    ensures r.None? <==> value == ""
    ensures r.Some? ==> r.value == value
  {
    if value == "" then None else Some(value)
  }

  /** `prev.map(q => q.id === id ? { ...q, folder: newFolder } : q)`. */
  function MoveToFolder(qs: seq<SavedQuery>, id: string, newFolder: Option<string>): (r: seq<SavedQuery>)
    ensures |r| == |qs|
    ensures forall i :: 0 <= i < |qs| && qs[i].id == id ==> r[i] == qs[i].(folder := newFolder)
    ensures forall i :: 0 <= i < |qs| && qs[i].id != id ==> r[i] == qs[i]
  {
    seq(|qs|, i requires 0 <= i < |qs| => if qs[i].id == id then qs[i].(folder := newFolder) else qs[i])
  }

  /** A moved query is listed under its new folder, and moving twice is moving to the
      second folder. */
  lemma MoveEffect(qs: seq<SavedQuery>, id: string, f: string, g: Option<string>)
    ensures forall q :: q in MoveToFolder(qs, id, Some(f)) && q.id == id ==> FolderMatches(q, f)
    ensures MoveToFolder(MoveToFolder(qs, id, Some(f)), id, g) == MoveToFolder(qs, id, g)
  {
  }

  // ---------------------------------------------------------------------------
  // Search and filters

  /** The search term occurs in the title or in the query text, ignoring ASCII case. */
  predicate MatchesSearch(q: SavedQuery, term: string)
  {
    Contains(Lower(q.title), Lower(term)) || Contains(Lower(q.query), Lower(term))
  }

  /** `filterMode === 'all' || query.mode === filterMode`. */
  predicate ModeMatches(q: SavedQuery, filterMode: string)
  {
    filterMode == "all" || q.mode == filterMode
  }

  /** `selectedFolder === 'all' || query.folder === selectedFolder`. */
  predicate FolderMatches(q: SavedQuery, selectedFolder: string)
  {
    selectedFolder == "all" || q.folder == Some(selectedFolder)
  }

  /** The queries kept by the search and the two filters, in list order; a component
      without the mode or folder filter passes "all" for it. */
  function Select(qs: seq<SavedQuery>, term: string, filterMode: string, selectedFolder: string): (r: seq<SavedQuery>)
    ensures forall q :: q in r <==>
              q in qs && MatchesSearch(q, term) && ModeMatches(q, filterMode) && FolderMatches(q, selectedFolder)
  {
    Seqs.Filter(qs, (q: SavedQuery) => MatchesSearch(q, term) && ModeMatches(q, filterMode) && FolderMatches(q, selectedFolder))
  }

  lemma LowerIdempotent(s: string)
    ensures Lower(Lower(s)) == Lower(s)
  {
  }

  /** The search ignores the case of the term, and the empty term matches every query. */
  lemma SearchCaseAndEmpty(q: SavedQuery, term: string)
    ensures MatchesSearch(q, term) <==> MatchesSearch(q, Lower(term))
    ensures MatchesSearch(q, "")
  {
    LowerIdempotent(term);
    ContainsEmpty(Lower(q.title));
  }

  /** With an empty search and both filters on "all", every query is listed. */
  lemma SelectNothingFiltered(qs: seq<SavedQuery>)
    ensures Select(qs, "", "all", "all") == qs
  {
    forall q | q in qs ensures MatchesSearch(q, "") {
      SearchCaseAndEmpty(q, "");
    }
    Seqs.FilterAll(qs, (q: SavedQuery) => MatchesSearch(q, "") && ModeMatches(q, "all") && FolderMatches(q, "all"));
  }

  // ---------------------------------------------------------------------------
  // Favourites first, then newest

  /** The comparator of the sort: `-1`, `1`, or `b.updatedAt - a.updatedAt`. */
  function Compare(a: SavedQuery, b: SavedQuery): (r: int)
    ensures a.isFavorite && !b.isFavorite ==> r < 0
    ensures !a.isFavorite && b.isFavorite ==> r > 0
    ensures a.isFavorite == b.isFavorite ==> (r < 0 <==> a.updatedAt > b.updatedAt) && (r == 0 <==> a.updatedAt == b.updatedAt)
  {
    if a.isFavorite && !b.isFavorite then -1
    else if !a.isFavorite && b.isFavorite then 1
    else b.updatedAt - a.updatedAt
  }

  /** `a` may stay in front of `b`. */
  predicate MayPrecede(a: SavedQuery, b: SavedQuery)
  {
    Compare(a, b) <= 0
  }

  lemma MayPrecedeTotalPreorder()
    ensures Sorting.TotalPreorder(MayPrecede)
  {
  }

  /** `filteredQueries.sort(compare)`. */
  function SortQueries(qs: seq<SavedQuery>): (r: seq<SavedQuery>)
    ensures multiset(r) == multiset(qs)
    ensures forall q :: q in r <==> q in qs
    ensures forall i, j :: 0 <= i < j < |r| && r[j].isFavorite ==> r[i].isFavorite
    ensures forall i, j :: 0 <= i < j < |r| && r[i].isFavorite == r[j].isFavorite ==> r[i].updatedAt >= r[j].updatedAt
  {
    MayPrecedeTotalPreorder();
    Sorting.SortBy(qs, MayPrecede)
  }

  /** A list already in the order is shown as it is (the server sends it newest first). */
  lemma SortKeepsOrderedList(qs: seq<SavedQuery>)
    requires forall i, j :: 0 <= i < j < |qs| ==> MayPrecede(qs[i], qs[j])
    ensures SortQueries(qs) == qs
  {
    Sorting.SortBySorted(qs, MayPrecede);
  }

  // ---------------------------------------------------------------------------
  // Folders

  /** `queries.map(q => q.folder).filter(Boolean)`. */
  function FolderValues(qs: seq<SavedQuery>): (r: seq<string>)
    ensures forall f :: f in r <==> f != "" && exists q :: q in qs && q.folder == Some(f)
  {
    if qs == [] then []
    else
      var rest := FolderValues(qs[1..]);
      assert forall q :: q in qs <==> q == qs[0] || q in qs[1..];
      if qs[0].folder.Some? && qs[0].folder.value != "" then [qs[0].folder.value] + rest else rest
  }

  /** The panel's folders: each non-empty folder once, in order of first appearance. */
  function FoldersInOrder(qs: seq<SavedQuery>): (r: seq<string>)
    ensures forall f :: f in r <==> f != "" && exists q :: q in qs && q.folder == Some(f)
    ensures Seqs.Distinct(r)
  {
    Seqs.Dedup(FolderValues(qs))
  }

  /** The panel's folders keep the order in which they first appear. */
  lemma FoldersInOrderKeepOrder(qs: seq<SavedQuery>, i: nat, j: nat)
    requires i < j < |FoldersInOrder(qs)|
    ensures Seqs.FirstIndex(FolderValues(qs), FoldersInOrder(qs)[i])
            < Seqs.FirstIndex(FolderValues(qs), FoldersInOrder(qs)[j])
  {
    Seqs.DedupOrder(FolderValues(qs), i, j);
  }

  /** The sidebar's folders: each non-empty folder once, in string order. */
  function SortedFolders(qs: seq<SavedQuery>): (r: seq<string>)
    ensures forall f :: f in r <==> f != "" && exists q :: q in qs && q.folder == Some(f)
    ensures Seqs.Distinct(r)
    ensures Sorting.SortedBy(r, Sorting.LexLe)
  {
    var d := FoldersInOrder(qs);
    Sorting.LexTotalPreorder();
    Sorting.SortByDistinct(d, Sorting.LexLe);
    Sorting.SortBy(d, Sorting.LexLe)
  }

  // ---------------------------------------------------------------------------
  // The collapsed sidebar

  /** `savedQueries.slice(0, 3)`, and the "+N" counter shown when there are more. */
  function Preview(qs: seq<SavedQuery>): (r: (seq<SavedQuery>, Option<nat>))
    ensures |r.0| <= 3 && |r.0| <= |qs| && r.0 == qs[..|r.0|]
    ensures r.1.Some? <==> |qs| > 3
    ensures r.1.Some? ==> |r.0| == 3 && |r.0| + r.1.value == |qs|
    ensures r.1.None? ==> r.0 == qs
  {
    var shown := Seqs.Take(qs, 3);
    assert shown == qs[..|shown|];
    (shown, if |qs| > 3 then Some(|qs| - 3) else None)
  }

}
