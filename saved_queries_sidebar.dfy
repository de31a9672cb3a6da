/**
 The saved-queries sidebar (src/components/SavedQueriesSidebar.js): the learner's saved
 queries, searched and filtered by mode and folder, favourites first and newest first, with
 delete, favourite and move-to-folder actions applied once the server accepts them.
 */
module SavedQueriesSidebar {

  import opened Wrappers
  import opened Strings
  import opened SavedQueryList

  const DeleteFailed := "Failed to delete saved query"

  class Sidebar {

    var queries: seq<SavedQuery>
    var isLoading: bool
    var isCollapsed: bool
    var searchTerm: string
    var filterMode: string
    var selectedFolder: string
    var showFolderInput: bool
    var newFolderName: string

    constructor ()
      ensures queries == [] && !isLoading && !isCollapsed && searchTerm == ""
      ensures filterMode == "all" && selectedFolder == "all" && !showFolderInput && newFolderName == ""
    {
      queries := [];
      isLoading := false;
      isCollapsed := false;
      searchTerm := "";
      filterMode := "all";
      selectedFolder := "all";
      showFolderInput := false;
      newFolderName := "";
    }

    /** `folders`: the folder options, each non-empty folder once, in string order. */
    function Folders(): (r: seq<string>)
      reads this
      ensures forall f :: f in r <==> f != "" && exists q :: q in queries && q.folder == Some(f)
    {
      SortedFolders(queries)
    }

    /** `sortedQueries`: the queries the search and both filters keep, favourites first and
        newest first within each group. */
    function Listed(): (r: seq<SavedQuery>)
      reads this
      ensures forall q :: q in r <==> q in queries && MatchesSearch(q, searchTerm)
                                      && ModeMatches(q, filterMode) && FolderMatches(q, selectedFolder)
      ensures forall i, j :: 0 <= i < j < |r| && r[j].isFavorite ==> r[i].isFavorite
      ensures forall i, j :: 0 <= i < j < |r| && r[i].isFavorite == r[j].isFavorite ==> r[i].updatedAt >= r[j].updatedAt
    {
      SortQueries(Select(queries, searchTerm, filterMode, selectedFolder))
    }

    /** The collapsed sidebar: the first three queries and the count of the others. */
    function CollapsedView(): (r: (seq<SavedQuery>, Option<nat>))
      reads this
      ensures |r.0| <= 3 && (r.1.Some? <==> |queries| > 3)
      ensures r.1.Some? ==> |r.0| + r.1.value == |queries|
    {
      Preview(queries)
    }

    /** The end of `fetchSavedQueries`, with the list of a successful answer. */
    method Fetched(outcome: Outcome, savedQueries: seq<SavedQuery>)
      modifies this`queries, this`isLoading
      ensures outcome == Ok ==> queries == savedQueries
      ensures outcome != Ok ==> queries == old(queries)
      ensures !isLoading
    {
      if outcome == Ok {
        queries := savedQueries;
      }
      isLoading := false;
    }

    /** `handleDelete(id)`: only after the confirmation, and only once the server agreed. */
    method HandleDelete(id: string, confirmed: bool, outcome: Outcome) returns (alert: Option<string>)
      modifies this`queries
      ensures confirmed && outcome == Ok ==> queries == DeleteById(old(queries), id) && alert.None?
      ensures confirmed && outcome != Ok ==> queries == old(queries) && alert == Some(DeleteFailed)
      ensures !confirmed ==> queries == old(queries) && alert.None?
    {
      alert := None;
      if !confirmed {
        return;
      }
      if outcome == Ok {
        queries := DeleteById(queries, id);
      } else {
        alert := Some(DeleteFailed);
      }
    }

    /** `handleToggleFavorite(id, currentFavorite)`. */
    method HandleToggleFavorite(id: string, currentFavorite: bool, outcome: Outcome)
      modifies this`queries
      ensures outcome == Ok ==> queries == SetFavorite(old(queries), id, currentFavorite)
      ensures outcome != Ok ==> queries == old(queries)
    {
      if outcome == Ok {
        queries := SetFavorite(queries, id, currentFavorite);
      }
    }

    /** The folder `select` of a query: `handleMoveToFolder(id, value || null)`. */
    method HandleMoveToFolder(id: string, value: string, outcome: Outcome)
      modifies this`queries
      ensures outcome == Ok ==> queries == MoveToFolder(old(queries), id, FolderChoice(value))
      ensures outcome != Ok ==> queries == old(queries)
    {
      if outcome == Ok {
        queries := MoveToFolder(queries, id, FolderChoice(value));
      }
    }

    /** "Create" (or Enter in the name field): a non-blank name becomes the selected folder,
        trimmed, and the input closes. No folder is stored until a query is moved into it. */
    method CreateFolder()
      modifies this`selectedFolder, this`newFolderName, this`showFolderInput
      ensures Trim(old(newFolderName)) == "" ==>
                selectedFolder == old(selectedFolder) && newFolderName == old(newFolderName)
                && showFolderInput == old(showFolderInput)
      ensures Trim(old(newFolderName)) != "" ==>
                selectedFolder == Trim(old(newFolderName)) && newFolderName == "" && !showFolderInput
    {
      if Trim(newFolderName) != "" {
        selectedFolder := Trim(newFolderName);
        newFolderName := "";
        showFolderInput := false;
      }
    }

    /** The key handler of the folder-name field: Enter creates, other keys do nothing. */
    method FolderNameKey(key: string)
      modifies this`selectedFolder, this`newFolderName, this`showFolderInput
      ensures key == "Enter" && Trim(old(newFolderName)) != "" ==>
                selectedFolder == Trim(old(newFolderName)) && newFolderName == "" && !showFolderInput
      ensures key != "Enter" || Trim(old(newFolderName)) == "" ==>
                selectedFolder == old(selectedFolder) && newFolderName == old(newFolderName)
                && showFolderInput == old(showFolderInput)
    {
      if key == "Enter" {
        CreateFolder();
      }
    }
  }

}
