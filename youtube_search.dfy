/**
 * The search hook: the result list of the discovery page and the paging
 * state around it. `search` starts a new result list for a query and
 * `loadMore` appends the next page of the current query. The request to the
 * search endpoint is the parameter `outcome`: the decoded page, a non-OK
 * response with the `error` field of its body, or a thrown error.
 */
module YouTubeSearch {
  import opened Common
  import opened Text
  import opened YouTubeTypes

  /** The body of an OK response. */
  datatype Page = Page(items: seq<ViralVideo>, nextPageToken: Option<string>, totalResults: int)

  datatype FetchOutcome =
    | Fetched(page: Page)
    | Rejected(errorField: Option<string>)  // a non-OK status; the body's `error` field
    | Thrown(message: Option<string>)       // a thrown value; its message when it is an `Error`

  const EmptyQueryMessage := "Please enter a search query"
  const SearchFailedMessage := "Failed to search videos"
  const LoadMoreFailedMessage := "Failed to load more videos"
  const UnknownErrorMessage := "An error occurred"

  /** The hook's state as a value. */
  datatype SearchState = SearchState(
    videos: seq<ViralVideo>,
    loading: bool,
    error: Option<string>,
    nextPageToken: Option<string>,
    totalResults: int,
    currentQuery: string)

  const Initial := SearchState([], false, None, None, 0, "")

  /**
   * The error shown for a failed request: a non-empty `error` field of the
   * response body, else `fallback`; for a thrown error its message, else a
   * generic one.
   */
  function FailureMessage(outcome: FetchOutcome, fallback: string): (m: string)
    requires !outcome.Fetched?
    ensures outcome.Rejected? && outcome.errorField.Some? && outcome.errorField.value != "" ==> m == outcome.errorField.value
    ensures outcome.Rejected? && (outcome.errorField.None? || outcome.errorField.value == "") ==> m == fallback
    ensures outcome.Thrown? ==> m == outcome.message.GetOr(UnknownErrorMessage)
  {
    match outcome
    case Rejected(e) => if e.Some? && e.value != "" then e.value else fallback
    case Thrown(msg) => msg.GetOr(UnknownErrorMessage)
  }

  /** `search(query)` as a value: the state once the call has completed. */
  function AfterSearch(s: SearchState, query: string, outcome: FetchOutcome): (r: SearchState)
    ensures IsBlank(query) ==> r == s.(error := Some(EmptyQueryMessage))
    ensures !IsBlank(query) ==> r.currentQuery == query && !r.loading
    ensures !IsBlank(query) && outcome.Fetched? ==>
      && r.videos == outcome.page.items
      && r.nextPageToken == outcome.page.nextPageToken
      && r.totalResults == outcome.page.totalResults
      && r.error == None
    ensures !IsBlank(query) && !outcome.Fetched? ==>
      && r.videos == []
      && r.error == Some(FailureMessage(outcome, SearchFailedMessage))
      && r.nextPageToken == s.nextPageToken
      && r.totalResults == s.totalResults
  {
    if IsBlank(query) then s.(error := Some(EmptyQueryMessage))
    else
      var started := s.(loading := true, error := None, currentQuery := query);
      var settled :=
        if outcome.Fetched? then
          started.(videos := outcome.page.items, nextPageToken := outcome.page.nextPageToken,
                   totalResults := outcome.page.totalResults)
        else started.(error := Some(FailureMessage(outcome, SearchFailedMessage)), videos := []);
      settled.(loading := false)
  }

  /** `!nextPageToken || !currentQuery`: nothing to load. */
  predicate NothingToLoad(s: SearchState) {
    s.nextPageToken.None? || s.nextPageToken.value == "" || s.currentQuery == ""
  }

  /** `loadMore()` as a value: the state once the call has completed. */
  function AfterLoadMore(s: SearchState, outcome: FetchOutcome): (r: SearchState)
    ensures NothingToLoad(s) ==> r == s
    ensures !NothingToLoad(s) ==> !r.loading && r.currentQuery == s.currentQuery && r.totalResults == s.totalResults
    ensures !NothingToLoad(s) && outcome.Fetched? ==>
      && r.videos == s.videos + outcome.page.items
      && r.nextPageToken == outcome.page.nextPageToken
      && r.error == None
    ensures !NothingToLoad(s) && !outcome.Fetched? ==>
      && r.videos == s.videos
      && r.nextPageToken == s.nextPageToken
      && r.error == Some(FailureMessage(outcome, LoadMoreFailedMessage))
  {
    if NothingToLoad(s) then s
    else
      var started := s.(loading := true, error := None);
      var settled :=
        if outcome.Fetched? then
          started.(videos := s.videos + outcome.page.items, nextPageToken := outcome.page.nextPageToken)
        else started.(error := Some(FailureMessage(outcome, LoadMoreFailedMessage)));
      settled.(loading := false)
  }

  class SearchHook {
    var videos: seq<ViralVideo>
    var loading: bool
    var error: Option<string>
    var nextPageToken: Option<string>
    var totalResults: int
    var currentQuery: string

    function State(): SearchState
      reads this
    {
      SearchState(videos, loading, error, nextPageToken, totalResults, currentQuery)
    }

    constructor ()
      ensures State() == Initial
    {
      videos := [];
      loading := false;
      error := None;
      nextPageToken := None;
      totalResults := 0;
      currentQuery := "";
    }

    method Search(query: string, outcome: FetchOutcome)
      modifies this
      ensures State() == AfterSearch(old(State()), query, outcome)
    {
      if IsBlank(query) {
        error := Some(EmptyQueryMessage);
        return;
      }
      loading := true;
      error := None;
      currentQuery := query;
      if outcome.Fetched? {
        videos := outcome.page.items;
        nextPageToken := outcome.page.nextPageToken;
        totalResults := outcome.page.totalResults;
      } else {
        error := Some(FailureMessage(outcome, SearchFailedMessage));
        videos := [];
      }
      loading := false;
    }

    method LoadMore(outcome: FetchOutcome)
      modifies this
      ensures State() == AfterLoadMore(old(State()), outcome)
    {
      if nextPageToken.None? || nextPageToken.value == "" || currentQuery == "" {
        return;
      }
      loading := true;
      error := None;
      if outcome.Fetched? {
        videos := videos + outcome.page.items;
        nextPageToken := outcome.page.nextPageToken;
      } else {
        error := Some(FailureMessage(outcome, LoadMoreFailedMessage));
      }
      loading := false;
    }
  }

  // ----- Lemmas -----

  /** Paging only ever extends the list: the old results stay a prefix whatever the outcome. */
  lemma LoadMoreKeepsPrefix(s: SearchState, outcome: FetchOutcome)
    ensures |s.videos| <= |AfterLoadMore(s, outcome).videos|
    ensures AfterLoadMore(s, outcome).videos[..|s.videos|] == s.videos
  {
    var r := AfterLoadMore(s, outcome);
    if !NothingToLoad(s) && outcome.Fetched? {
      assert r.videos == s.videos + outcome.page.items;
    }
  }

  /** A search followed by a page: both pages in order, the first response's total, the second's token. */
  lemma SearchThenLoadMore(s: SearchState, query: string, first: Page, second: Page)
    requires !IsBlank(query)
    requires first.nextPageToken.Some? && first.nextPageToken.value != ""
    ensures var r := AfterLoadMore(AfterSearch(s, query, Fetched(first)), Fetched(second));
      && r.videos == first.items + second.items
      && r.totalResults == first.totalResults
      && r.nextPageToken == second.nextPageToken
      && r.currentQuery == query
      && r.error == None && !r.loading
  {
    var mid := AfterSearch(s, query, Fetched(first));
    assert mid.currentQuery == query;
    assert query != "" by {
      if query == "" {
        assert IsBlank(query);
      }
    }
  }

  /** A failed search leaves nothing to page through unless a token is left from before. */
  lemma FailedSearchThenLoadMore(s: SearchState, query: string, failure: FetchOutcome, next: FetchOutcome)
    requires !IsBlank(query) && !failure.Fetched?
    requires s.nextPageToken.None?
    ensures AfterLoadMore(AfterSearch(s, query, failure), next) == AfterSearch(s, query, failure)
  {
  }

  /**
   * A failed search keeps the previous query's page token, so a following
   * `loadMore` pages the new query with the old token.
   */
  lemma FailedSearchKeepsOldToken(s: SearchState, query: string, failure: FetchOutcome, page: Page)
    requires !IsBlank(query) && !failure.Fetched?
    requires s.nextPageToken.Some? && s.nextPageToken.value != ""
    ensures var mid := AfterSearch(s, query, failure);
      && mid.nextPageToken == s.nextPageToken
      && mid.currentQuery == query
      && AfterLoadMore(mid, Fetched(page)).videos == page.items
  {
    var mid := AfterSearch(s, query, failure);
    assert query != "" by {
      if query == "" {
        assert IsBlank(query);
      }
    }
    assert mid.videos == [];
    assert [] + page.items == page.items;
  }

  /** A blank query changes only the error, however often it is repeated. */
  lemma BlankQueryIdempotent(s: SearchState, query: string, outcome: FetchOutcome, other: FetchOutcome)
    requires IsBlank(query)
    ensures AfterSearch(AfterSearch(s, query, outcome), query, other) == AfterSearch(s, query, outcome)
    ensures AfterSearch(s, query, outcome).videos == s.videos
  {
  }
}
