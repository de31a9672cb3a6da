/**
 The saved-queries dialog (src/components/SavedQueries.js): the saved queries searched and
 filtered by mode, favourites first and newest first, with delete and favourite actions.
 */
module SavedQueries {

  import opened Wrappers
  import opened SavedQueryList

  const DeleteFailed := "Failed to delete saved query"

  class Dialog {

    var queries: seq<SavedQuery>
    var isLoading: bool
    var searchTerm: string
    var filterMode: string

    constructor ()
      ensures queries == [] && !isLoading && searchTerm == "" && filterMode == "all"
    {
      queries := [];
      isLoading := false;
      searchTerm := "";
      filterMode := "all";
    }

    /** What the dialog lists: nothing at all while it is closed; otherwise the queries
        the search and the mode filter keep, favourites first, newest first. */
    function Rendered(isOpen: bool): (r: Option<seq<SavedQuery>>)
      reads this
      ensures r.None? <==> !isOpen
      ensures r.Some? ==> forall q :: q in r.value <==>
                q in queries && MatchesSearch(q, searchTerm) && ModeMatches(q, filterMode)
      ensures r.Some? ==> forall i, j :: 0 <= i < j < |r.value| && r.value[j].isFavorite ==> r.value[i].isFavorite
      ensures r.Some? ==> forall i, j :: 0 <= i < j < |r.value| && r.value[i].isFavorite == r.value[j].isFavorite
                            ==> r.value[i].updatedAt >= r.value[j].updatedAt
    {
      if !isOpen then None else Some(SortQueries(Select(queries, searchTerm, filterMode, "all")))
    }

    /** The end of `fetchSavedQueries`, with the list of a successful answer. */
    method Fetched(outcome: Outcome, savedQueries: seq<SavedQuery>)
      modifies this`queries, this`isLoading
      ensures outcome == Ok ==> queries == savedQueries
      ensures outcome != Ok ==> queries == old(queries)
      ensures !isLoading
    {
      if outcome == Ok {
        queries := savedQueries;
      }
      isLoading := false;
    }

    /** `handleDelete(id)`: a failed delete leaves the list as it was and alerts. */
    method HandleDelete(id: string, confirmed: bool, outcome: Outcome) returns (alert: Option<string>)
      modifies this`queries
      ensures confirmed && outcome == Ok ==> queries == DeleteById(old(queries), id) && alert.None?
      ensures confirmed && outcome != Ok ==> queries == old(queries) && alert == Some(DeleteFailed)
      ensures !confirmed ==> queries == old(queries) && alert.None?
    {
      alert := None;
      if !confirmed {
        return;
      }
      if outcome == Ok {
        queries := DeleteById(queries, id);
      } else {
        alert := Some(DeleteFailed);
      }
    }

    /** `handleToggleFavorite(id, currentFavorite)`. */
    method HandleToggleFavorite(id: string, currentFavorite: bool, outcome: Outcome)
      modifies this`queries
      ensures outcome == Ok ==> queries == SetFavorite(old(queries), id, currentFavorite)
      ensures outcome != Ok ==> queries == old(queries)
    {
      if outcome == Ok {
        queries := SetFavorite(queries, id, currentFavorite);
      }
    }
  }

}
