/** The search state shared by the pages: whether the search popup is
    open, the query, the results, and whether the pages show them. */
module SearchContext {
  import opened Wrappers
  import opened BackendTypes

  /** A result is an article or a task. */
  datatype SearchResult = ArticleResult(item: FeedItem) | TaskResult(task: Task)

  class SearchState {
    var open: bool
    var searchQuery: string
    var searchResults: seq<SearchResult>
    var isSearching: bool
    var searchError: Option<string>
    var isSearchMode: bool

    /** Nothing open, nothing searched, no results, no error. */
    constructor()
      ensures !open && searchQuery == "" && searchResults == [] && !isSearching
      ensures searchError.None? && !isSearchMode
    {
      open := false;
      searchQuery := "";
      searchResults := [];
      isSearching := false;
      searchError := None;
      isSearchMode := false;
    }

    /** The state `clearSearchMode` leaves: everything reset except
        whether a search is running. */
    predicate Cleared()
      reads this
    {
      !open && searchQuery == "" && searchResults == [] && searchError.None? && !isSearchMode
    }

    /** `clearSearchMode`: closes the popup, leaves search mode, drops the
        results, the query and the error; a running search stays flagged.
        Clearing a cleared state changes nothing. */
    method ClearSearchMode()
      modifies this
      ensures Cleared()
      ensures isSearching == old(isSearching)
      ensures old(Cleared()) ==> open == old(open) && searchQuery == old(searchQuery)
                                 && searchResults == old(searchResults) && searchError == old(searchError)
                                 && isSearchMode == old(isSearchMode)
    {
      open := false;
      isSearchMode := false;
      searchResults := [];
      searchQuery := "";
      searchError := None;
    }
  }
}
