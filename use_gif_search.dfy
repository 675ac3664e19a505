/** The paginated search session of components/use-gif-search.ts.

    Each asynchronous operation of the hook runs in two parts. The part up
    to the `await` either returns without fetching, or updates the session
    and issues one request to a server action; the model returns that
    request as a `Call` (the closure's captured `resetOffset` and
    `currentOffset` travel with it). The part after the `await` is
    `Settle`, given the call and what the server action settled to.

    The session's meaning is given by pure step functions on `State`; the
    class `Session` holds the same fields as mutable state (the React state
    variables and the two refs) and its methods are proved to perform
    exactly those steps. */
module GifSearch {
  import opened Js
  import opened Actions

  const ResultsPerPage: nat := 24
  const UnexpectedErrorMessage := "An unexpected error occurred. Please try again."

  /** A request in flight, with what the closure captured when it began:
      whether it resets the list (its `currentOffset` is `request.offset`). */
  datatype Call = Call(request: Request, reset: bool)

  /** The hook's session: the five state variables, `offsetRef.current`
      (offset) and `currentQueryRef.current` (currentQuery). */
  datatype State = State(
    gifs: seq<Gif>,
    isLoading: bool,
    isLoadingMore: bool,
    error: Option<string>,
    hasMore: bool,
    offset: nat,
    currentQuery: Option<string>)

  /** What starting an operation does: the request it issues, if any, and
      the session afterwards. */
  datatype Start = Start(call: Option<Call>, next: State)

  /** The session useGifSearch(initialGifs) creates. */
  function Initial(initialGifs: seq<Gif>): (r: State)
    ensures r.gifs == initialGifs && r.offset == |r.gifs| && r.hasMore
    ensures !r.isLoading && !r.isLoadingMore && r.error == None && r.currentQuery == None
    ensures LoadMoreStarted(r).call == Some(Call(TrendingRequest(|initialGifs|, ResultsPerPage), false))
  {
    State(initialGifs, false, false, None, true, |initialGifs|, None)
  }

  /** The message the catch clauses store: an Error's own message, or the
      generic one for any other thrown value. */
  function ErrorMessage(thrown: Thrown): (m: string)
    ensures thrown.ErrorObject? ==> m == thrown.message
    ensures thrown.OtherValue? ==> m == UnexpectedErrorMessage
  {
    if thrown.ErrorObject? then thrown.message else UnexpectedErrorMessage
  }

  /** The duplicate-search guard: a reset search for the non-empty query
      that is already current. */
  predicate IsDuplicate(s: State, query: string, resetOffset: bool): (r: bool)
    ensures r ==> resetOffset && ContinuesSearch(s) && s.currentQuery.value == query
    ensures s.currentQuery == Some(query) && query != "" ==> (r <==> resetOffset)
  {
    s.currentQuery == Some(query) && query != "" && resetOffset
  }

  /** search(query, resetOffset) up to its `await`. A duplicate returns
      without touching anything. Otherwise the call searches from 0 (reset)
      or from the current offset (append); a reset makes `query` current,
      raises isLoading and zeroes the offset, an append raises
      isLoadingMore; either clears the error. The list and hasMore are left
      alone until the call settles. */
  function SearchStarted(s: State, query: string, resetOffset: bool): (r: Start)
    ensures r.call.None? <==> IsDuplicate(s, query, resetOffset)
    ensures r.call.None? ==> r.next == s
    ensures r.call.Some? ==>
      && r.call.value == Call(SearchRequest(query, if resetOffset then 0 else s.offset, ResultsPerPage), resetOffset)
      && r.next.gifs == s.gifs && r.next.hasMore == s.hasMore && r.next.error == None
    ensures r.call.Some? && resetOffset ==>
      r.next == s.(isLoading := true, offset := 0, currentQuery := Some(query), error := None)
    ensures !resetOffset ==> r.next == s.(isLoadingMore := true, error := None)
  {
    if IsDuplicate(s, query, resetOffset) then
      Start(None, s)
    else
      var currentOffset := if resetOffset then 0 else s.offset;
      var s1 := if resetOffset then s.(currentQuery := Some(query), isLoading := true, offset := 0)
                else s.(isLoadingMore := true);
      Start(Some(Call(SearchRequest(query, currentOffset, ResultsPerPage), resetOffset)), s1.(error := None))
  }

  /** loadTrending(resetOffset) up to its `await`: like a search, but never
      suppressed, and a reset leaves no current query. */
  function TrendingStarted(s: State, resetOffset: bool): (r: Start)
    ensures r.call == Some(Call(TrendingRequest(if resetOffset then 0 else s.offset, ResultsPerPage), resetOffset))
    ensures r.next.gifs == s.gifs && r.next.hasMore == s.hasMore && r.next.error == None
    ensures resetOffset ==> r.next == s.(isLoading := true, offset := 0, currentQuery := None, error := None)
    ensures !resetOffset ==> r.next == s.(isLoadingMore := true, error := None)
  {
    var currentOffset := if resetOffset then 0 else s.offset;
    var s1 := if resetOffset then s.(isLoading := true, currentQuery := None, offset := 0)
              else s.(isLoadingMore := true);
    Start(Some(Call(TrendingRequest(currentOffset, ResultsPerPage), resetOffset)), s1.(error := None))
  }

  /** JavaScript truthiness of a `string | null`: neither null nor empty. */
  predicate IsTruthy(q: Option<string>) {
    q.Some? && q.value != ""
  }

  /** Whether `loadMore` continues a search: the current query is truthy
      (neither null nor empty). */
  predicate ContinuesSearch(s: State): (r: bool)
    ensures r ==> s.currentQuery.Some? && s.currentQuery.value != ""
    ensures !r ==> s.currentQuery == None || s.currentQuery == Some("")
  {
    IsTruthy(s.currentQuery)
  }

  /** loadMore() up to its `await`. Nothing happens while a page is being
      appended or when there is nothing more; otherwise one append request
      from the current offset, for the current query when there is one and
      for trending otherwise. isLoading is not consulted. */
  function LoadMoreStarted(s: State): (r: Start)
    ensures r.call.None? <==> s.isLoadingMore || !s.hasMore
    ensures r.call.None? ==> r.next == s
    ensures r.call.Some? ==>
      && r.next == s.(isLoadingMore := true, error := None)
      && !r.call.value.reset
      && r.call.value.request.offset == s.offset
      && r.call.value.request.limit == ResultsPerPage
      && (r.call.value.request.SearchRequest? <==> ContinuesSearch(s))
      && (r.call.value.request.SearchRequest? ==> Some(r.call.value.request.query) == s.currentQuery)
  {
    if s.isLoadingMore || !s.hasMore then Start(None, s)
    else if ContinuesSearch(s) then SearchStarted(s, s.currentQuery.value, false)
    else TrendingStarted(s, false)
  }

  /** clearError(). */
  function ErrorCleared(s: State): (r: State)
    ensures r.error == None
    ensures r.(error := s.error) == s
  {
    s.(error := None)
  }

  /** The rest of a call once its request settles. On success a reset
      replaces the list and an append extends it (old items first, in
      order); the offset becomes the call's start offset plus the page
      length and hasMore compares that with the total count, however short
      the page. On failure only the error changes, to the thrown message.
      Either way both loading flags are cleared. */
  function Settled(s: State, call: Call, outcome: Result<Page>): (r: State)
    ensures !r.isLoading && !r.isLoadingMore && r.currentQuery == s.currentQuery
    ensures outcome.Ok? ==>
      var page := outcome.value;
      && r.offset == call.request.offset + |page.data|
      && r.hasMore == (r.offset < page.totalCount)
      && r.error == s.error
      && (call.reset ==> r.gifs == page.data)
      && (!call.reset ==>
            |r.gifs| == |s.gifs| + |page.data| && r.gifs[..|s.gifs|] == s.gifs && r.gifs[|s.gifs|..] == page.data)
    ensures outcome.Throws? ==>
      r == s.(error := Some(ErrorMessage(outcome.thrown)), isLoading := false, isLoadingMore := false)
  {
    var currentOffset := call.request.offset;
    var r := match outcome
      case Ok(page) =>
        s.(gifs := if call.reset then page.data else s.gifs + page.data,
           offset := currentOffset + |page.data|,
           hasMore := currentOffset + |page.data| < page.totalCount)
      case Throws(thrown) =>
        s.(error := Some(ErrorMessage(thrown)));
    r.(isLoading := false, isLoadingMore := false)
  }

  /** The mutable session behind the hook. */
  class Session {
    var gifs: seq<Gif>
    var isLoading: bool
    var isLoadingMore: bool
    var error: Option<string>
    var hasMore: bool
    var offset: nat
    var currentQuery: Option<string>

    function Snapshot(): State
      reads this
    {
      State(gifs, isLoading, isLoadingMore, error, hasMore, offset, currentQuery)
    }

    /** useGifSearch(initialGifs): the initial list, its length as the
        offset, hasMore set, nothing loading, no error, no current query. */
    constructor (initialGifs: seq<Gif>)
      ensures Snapshot() == Initial(initialGifs)
      ensures gifs == initialGifs && offset == |initialGifs| && hasMore
      ensures !isLoading && !isLoadingMore && error == None && currentQuery == None
    {
      gifs := initialGifs;
      isLoading := false;
      isLoadingMore := false;
      error := None;
      hasMore := true;
      offset := |initialGifs|;
      currentQuery := None;
    }

    /** search(query, resetOffset) up to its `await`. */
    method Search(query: string, resetOffset: bool) returns (call: Option<Call>)
      modifies this
      ensures Start(call, Snapshot()) == SearchStarted(old(Snapshot()), query, resetOffset)
    {
      if currentQuery == Some(query) && query != "" && resetOffset {
        return None;
      }
      var currentOffset := if resetOffset then 0 else offset;
      if resetOffset {
        currentQuery := Some(query);
        isLoading := true;
        offset := 0;
      } else {
        isLoadingMore := true;
      }
      error := None;
      call := Some(Call(SearchRequest(query, currentOffset, ResultsPerPage), resetOffset));
    }

    /** loadTrending(resetOffset) up to its `await`. */
    method LoadTrending(resetOffset: bool) returns (call: Option<Call>)
      modifies this
      ensures Start(call, Snapshot()) == TrendingStarted(old(Snapshot()), resetOffset)
    {
      var currentOffset := if resetOffset then 0 else offset;
      if resetOffset {
        isLoading := true;
        currentQuery := None;
        offset := 0;
      } else {
        isLoadingMore := true;
      }
      error := None;
      call := Some(Call(TrendingRequest(currentOffset, ResultsPerPage), resetOffset));
    }

    /** loadMore() up to the `await` of the call it delegates to. */
    method LoadMore() returns (call: Option<Call>)
      modifies this
      ensures Start(call, Snapshot()) == LoadMoreStarted(old(Snapshot()))
    {
      if isLoadingMore || !hasMore {
        return None;
      }
      if currentQuery.Some? && currentQuery.value != "" {
        call := Search(currentQuery.value, false);
      } else {
        call := LoadTrending(false);
      }
    }

    /** clearError(): only the error changes. */
    method ClearError()
      modifies this
      ensures Snapshot() == ErrorCleared(old(Snapshot()))
      ensures error == None
    {
      error := None;
    }

    /** The try/catch/finally after the `await` of `call`, once the server
        action has settled to `outcome`. */
    method Settle(call: Call, outcome: Result<Page>)
      modifies this
      ensures Snapshot() == Settled(old(Snapshot()), call, outcome)
    {
      var currentOffset := call.request.offset;
      match outcome {
        case Ok(page) =>
          if call.reset {
            gifs := page.data;
          } else {
            gifs := gifs + page.data;
          }
          offset := currentOffset + |page.data|;
          hasMore := currentOffset + |page.data| < page.totalCount;
        case Throws(thrown) =>
          error := Some(ErrorMessage(thrown));
      }
      isLoading := false;
      isLoadingMore := false;
    }
  }

  /** A repeated reset search for a non-empty query issues no second
      request, whether the first is still in flight or has settled (either
      way), so two consecutive `search(q)` calls fetch at most once. */
  lemma RepeatedSearchFetchesOnce(s: State, query: string, outcome: Result<Page>)
    requires query != ""
    ensures var first := SearchStarted(s, query, true);
      && SearchStarted(first.next, query, true) == Start(None, first.next)
      && (first.call.Some? ==>
            var after := Settled(first.next, first.call.value, outcome);
            SearchStarted(after, query, true) == Start(None, after))
  {
  }

  /** After any successful call the paging bookkeeping is exact: a reset
      leaves offset equal to the list length, an append from an offset
      equal to the list length keeps it so, and hasMore is offset against
      the reported total. */
  lemma SuccessKeepsOffsetAtLength(s: State, call: Call, page: Page)
    requires call.request.offset == if call.reset then 0 else |s.gifs|
    ensures var r := Settled(s, call, Ok(page));
      r.offset == |r.gifs| && r.hasMore == (|r.gifs| < page.totalCount)
  {
  }

  /** A failed call keeps the list and hasMore it had when it settled; after
      a failed reset the offset stays 0 and the new query stays current, so
      the list shown no longer matches the offset. */
  lemma FailedResetKeepsOldList(s: State, query: string, thrown: Thrown)
    requires !IsDuplicate(s, query, true)
    ensures var first := SearchStarted(s, query, true);
      var r := Settled(first.next, first.call.value, Throws(thrown));
      && r.gifs == s.gifs && r.hasMore == s.hasMore
      && r.offset == 0 && r.currentQuery == Some(query)
      && r.error == Some(ErrorMessage(thrown))
      && !r.isLoading && !r.isLoadingMore
  {
  }

  /** When the request goes to the server actions, a failure always shows
      the action's own message: they only ever throw Errors, so the generic
      message is never used. */
  lemma ActionFailureShowsItsMessage(s: State, call: Call, server: Server)
    requires Invoke(server, call.request).Throws?
    ensures Settled(s, call, Invoke(server, call.request)).error == Some(Invoke(server, call.request).thrown.message)
  {
  }

  /** A failed reset search on a non-empty list with more to load leaves the
      new query current at offset 0, so the next loadMore fetches that
      query's first page and appends it after the old list, which the offset
      then no longer counts. */
  lemma FailedSearchThenLoadMoreAppendsFirstPage(s: State, query: string, thrown: Thrown, page: Page)
    requires !IsDuplicate(s, query, true) && query != "" && s.hasMore
    ensures var first := SearchStarted(s, query, true);
      var failed := Settled(first.next, first.call.value, Throws(thrown));
      var more := LoadMoreStarted(failed);
      && more.call == Some(Call(SearchRequest(query, 0, ResultsPerPage), false))
      && var after := Settled(more.next, more.call.value, Ok(page));
         && after.gifs == s.gifs + page.data && after.offset == |page.data|
         && (s.gifs != [] ==> after.offset != |after.gifs|)
  {
  }

  /** search("cats") answered with 24 of 100 items, then loadMore answered
      with the next 24: 48 items in order, offset 48, more to come. */
  lemma TwoPagesOfCats(s: State, page1: seq<Gif>, page2: seq<Gif>)
    requires |page1| == ResultsPerPage && |page2| == ResultsPerPage
    requires s.currentQuery != Some("cats")
    ensures var first := SearchStarted(s, "cats", true);
      var afterFirst := Settled(first.next, first.call.value, Ok(Page(page1, 100)));
      var more := LoadMoreStarted(afterFirst);
      && afterFirst.gifs == page1 && afterFirst.offset == 24 && afterFirst.hasMore
      && more.call == Some(Call(SearchRequest("cats", 24, ResultsPerPage), false))
      && var afterMore := Settled(more.next, more.call.value, Ok(Page(page2, 100)));
         afterMore.gifs == page1 + page2 && afterMore.offset == 48 && afterMore.hasMore
  {
  }
}
