/** The handlers of the GifExplorer component (components/gif-explorer.tsx):
    the `searchQuery` state they record and the hook calls they make.
    Each handler is modelled up to the `await` of the hook call it makes;
    the request it issues, if any, is returned and later settles through
    `hook.Settle`. */
module Explorer {
  import opened Js
  import opened Actions
  import opened GifSearch

  /** handleSearch(query) after `searchQuery` is recorded: a query that
      trims to nothing loads trending from the start; any other query is
      searched as given, untrimmed, unless it is already the current query.
      No search request is ever made for a blank query. */
  function SearchHandled(s: State, query: string): (r: Start)
    ensures IsBlank(query) ==> r.call == Some(Call(TrendingRequest(0, ResultsPerPage), true)) && r.next.currentQuery == None
    ensures !IsBlank(query) ==> (r.call.None? <==> s.currentQuery == Some(query))
    ensures !IsBlank(query) && r.call.Some? ==> r.call.value == Call(SearchRequest(query, 0, ResultsPerPage), true)
    ensures r.call.Some? && r.call.value.request.SearchRequest? ==> !IsBlank(r.call.value.request.query)
  {
    if !IsBlank(query) then SearchStarted(s, query, true) else TrendingStarted(s, true)
  }

  /** handleRetry(): the error is cleared first; then a non-empty
      `searchQuery` is searched again and an empty one reloads trending. A
      retried search is still subject to the duplicate guard, so when the
      query is already current nothing is fetched and only the error is
      cleared. */
  function RetryHandled(s: State, searchQuery: string): (r: Start)
    ensures r.next.error == None
    ensures searchQuery == "" ==> r.call == Some(Call(TrendingRequest(0, ResultsPerPage), true))
    ensures searchQuery != "" ==> (r.call.None? <==> s.currentQuery == Some(searchQuery))
    ensures searchQuery != "" && r.call.Some? ==> r.call.value == Call(SearchRequest(searchQuery, 0, ResultsPerPage), true)
    ensures r.call.None? ==> r.next == s.(error := None)
  {
    var cleared := ErrorCleared(s);
    if searchQuery != "" then SearchStarted(cleared, searchQuery, true) else TrendingStarted(cleared, true)
  }

  /** A retry after a failed search for `query` fetches nothing: the failed
      call left `query` current, so the retried search is a duplicate. The
      error disappears and the list from before the search stays, with the
      offset at 0. */
  lemma RetryAfterFailedSearchIssuesNoRequest(s: State, query: string, thrown: Thrown)
    requires SearchHandled(s, query).call.Some? && !IsBlank(query)
    ensures var first := SearchHandled(s, query);
      var failed := Settled(first.next, first.call.value, Throws(thrown));
      var retry := RetryHandled(failed, query);
      && failed.error == Some(ErrorMessage(thrown))
      && retry.call == None
      && retry.next.error == None
      && retry.next.gifs == s.gifs && retry.next.hasMore == s.hasMore
      && retry.next.offset == 0 && retry.next.currentQuery == Some(query)
      && !retry.next.isLoading && !retry.next.isLoadingMore
  {
  }

  /** A retry after a failed trending load does fetch again: trending is
      never suppressed. */
  lemma RetryAfterFailedTrendingRefetches(s: State, thrown: Thrown)
    ensures var first := SearchHandled(s, "");
      var failed := Settled(first.next, first.call.value, Throws(thrown));
      var retry := RetryHandled(failed, "");
      && retry.call == Some(Call(TrendingRequest(0, ResultsPerPage), true))
      && retry.next.error == None && retry.next.isLoading
  {
  }

  /** The GifExplorer component's state: its hook session and the last
      query the search bar submitted. */
  class Explorer {
    const hook: Session
    var searchQuery: string

    constructor (initialGifs: seq<Gif>)
      ensures fresh(hook) && hook.Snapshot() == Initial(initialGifs) && searchQuery == ""
    {
      hook := new Session(initialGifs);
      searchQuery := "";
    }

    /** handleSearch(query) up to the hook call's `await`. */
    method HandleSearch(query: string) returns (call: Option<Call>)
      modifies this, hook
      ensures searchQuery == query
      ensures Start(call, hook.Snapshot()) == SearchHandled(old(hook.Snapshot()), query)
    {
      searchQuery := query;
      if !IsBlank(query) {
        call := hook.Search(query, true);
      } else {
        call := hook.LoadTrending(true);
      }
    }

    /** handleRetry() up to the hook call's `await`; `searchQuery` is read,
        not changed. */
    method HandleRetry() returns (call: Option<Call>)
      modifies hook
      ensures Start(call, hook.Snapshot()) == RetryHandled(old(hook.Snapshot()), searchQuery)
    {
      hook.ClearError();
      if searchQuery != "" {
        call := hook.Search(searchQuery, true);
      } else {
        call := hook.LoadTrending(true);
      }
    }

    /** handleLoadMore(): the hook's loadMore and nothing else. */
    method HandleLoadMore() returns (call: Option<Call>)
      modifies hook
      ensures Start(call, hook.Snapshot()) == LoadMoreStarted(old(hook.Snapshot()))
    {
      call := hook.LoadMore();
    }
  }
}
