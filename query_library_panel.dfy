/**
 The query library panel (src/components/QueryLibraryPanel.js): the saved queries searched
 and filtered by folder, in the server's order, with a folder list the learner can extend.
 */
module QueryLibraryPanel {

  import opened Wrappers
  import opened Strings
  import Seqs
  import opened SavedQueryList

  /** The list and the folders the panel takes from `data.queries`, as written: the route
      answers with `savedQueries`, so a successful load always shows nothing. */
  function LoadedAsWritten(body: ListBody): (r: (seq<SavedQuery>, seq<string>))
    ensures body.queries.None? ==> r == ([], [])
    ensures body.queries.Some? ==> r.0 == body.queries.value
    ensures forall f :: f in r.1 <==> f != "" && exists q :: q in r.0 && q.folder == Some(f)
    ensures Seqs.Distinct(r.1)
  {
    match body.queries
    case None => ([], [])
    case Some(qs) => (qs, FoldersInOrder(qs))
  }

  /** The server's saved queries never reach the panel as written. */
  lemma RouteListIsLost(qs: seq<SavedQuery>)
    ensures LoadedAsWritten(RouteListBody(qs)) == ([], [])
    ensures qs != [] ==> LoadedAsWritten(RouteListBody(qs)).0 != qs
  {
  }

  /** The list and the folders of a successful load, read from the key the route sends. */
  function Loaded(body: ListBody): (r: (seq<SavedQuery>, seq<string>))
    ensures body.savedQueries.None? ==> r == ([], [])
    ensures body.savedQueries.Some? ==> r.0 == body.savedQueries.value
    ensures forall f :: f in r.1 <==> f != "" && exists q :: q in r.0 && q.folder == Some(f)
    ensures Seqs.Distinct(r.1)
  {
    match body.savedQueries
    case None => ([], [])
    case Some(qs) => (qs, FoldersInOrder(qs))
  }

  /** With the key read correctly, the panel shows exactly the server's list. */
  lemma RouteListIsShown(qs: seq<SavedQuery>)
    ensures Loaded(RouteListBody(qs)) == (qs, FoldersInOrder(qs))
  {
  }

  /** What loading a query hands back, in order. */
  datatype Effect = LoadQuery(query: SavedQuery) | Close

  class Panel {

    var queries: seq<SavedQuery>
    var isLoading: bool
    var searchTerm: string
    var selectedFolder: string
    var folders: seq<string>
    var showFolderInput: bool
    var newFolderName: string

    constructor ()
      ensures queries == [] && !isLoading && searchTerm == "" && selectedFolder == "all"
      ensures folders == [] && !showFolderInput && newFolderName == ""
    {
      queries := [];
      isLoading := false;
      searchTerm := "";
      selectedFolder := "all";
      folders := [];
      showFolderInput := false;
      newFolderName := "";
    }

    /** `filteredQueries`: search and folder filter, no mode filter, no sorting. */
    function Listed(): (r: seq<SavedQuery>)
      reads this
      ensures forall q :: q in r <==> q in queries && MatchesSearch(q, searchTerm) && FolderMatches(q, selectedFolder)
    {
      Select(queries, searchTerm, "all", selectedFolder)
    }

    /** The end of `fetchSavedQueries`, reading `data.queries` as the component does; the
        route's `{ savedQueries }` therefore leaves the panel empty. */
    method Fetched(outcome: Outcome, body: ListBody)
      modifies this`queries, this`folders, this`isLoading
      ensures outcome == Ok ==> (queries, folders) == LoadedAsWritten(body)
      ensures outcome == Ok && body.queries.None? ==> queries == [] && folders == []
      ensures outcome == Ok && body.queries.Some? ==> queries == body.queries.value
      ensures outcome != Ok ==> queries == old(queries) && folders == old(folders)
      ensures !isLoading
    {
      if outcome == Ok {
        var loaded := LoadedAsWritten(body);
        queries := loaded.0;
        folders := loaded.1;
      }
      isLoading := false;
    }

    /** `handleLoadQuery(query)`: `onLoadQuery(query)`, then `onClose()`. */
    method HandleLoadQuery(q: SavedQuery) returns (effects: seq<Effect>)
      ensures effects == [LoadQuery(q), Close]
    {
      effects := [LoadQuery(q), Close];
    }

    /** `handleDelete(queryId)`; a failure is only logged. */
    method HandleDelete(id: string, confirmed: bool, outcome: Outcome)
      modifies this`queries
      ensures confirmed && outcome == Ok ==> queries == DeleteById(old(queries), id)
      ensures !(confirmed && outcome == Ok) ==> queries == old(queries)
    {
      if confirmed && outcome == Ok {
        queries := DeleteById(queries, id);
      }
    }

    /** `handleToggleFavorite(queryId, currentFavorite)`. */
    method HandleToggleFavorite(id: string, currentFavorite: bool, outcome: Outcome)
      modifies this`queries
      ensures outcome == Ok ==> queries == SetFavorite(old(queries), id, currentFavorite)
      ensures outcome != Ok ==> queries == old(queries)
    {
      if outcome == Ok {
        queries := SetFavorite(queries, id, currentFavorite);
      }
    }

    /** `handleCreateFolder()`: a blank name sends nothing; otherwise the name is sent and,
        once accepted, appended as typed, untrimmed and even when already listed. */
    method HandleCreateFolder(outcome: Outcome) returns (sent: Option<string>)
      modifies this`folders, this`newFolderName, this`showFolderInput
      ensures sent.None? <==> Trim(old(newFolderName)) == ""
      ensures sent.Some? ==> sent.value == old(newFolderName)
      ensures sent.Some? && outcome == Ok ==>
                folders == old(folders) + [old(newFolderName)] && newFolderName == "" && !showFolderInput
      ensures sent.None? || outcome != Ok ==>
                folders == old(folders) && newFolderName == old(newFolderName) && showFolderInput == old(showFolderInput)
    {
      if Trim(newFolderName) == "" {
        return None;
      }
      sent := Some(newFolderName);
      if outcome == Ok {
        folders := folders + [newFolderName];
        newFolderName := "";
        showFolderInput := false;
      }
    }
  }

}
