/** What the session's list means when the hook is used one call at a time
    (each call settles before the next begins) against a provider that
    pages through a fixed feed per mode: the tail of the list is always a
    prefix of the current feed, and unless a reset fails the whole list is
    that prefix and hasMore says whether the feed goes on. */
module FeedCoherence {
  import opened Js
  import opened Actions
  import opened GifSearch

  /** The feed a session pages through: trending, or one search query. */
  datatype Mode = TrendingFeed | QueryFeed(query: string)

  /** The feed `loadMore` continues from a given current query. */
  function ModeOf(currentQuery: Option<string>): Mode {
    if IsTruthy(currentQuery) then QueryFeed(currentQuery.value) else TrendingFeed
  }

  /** The feed a request reads from. */
  function RequestMode(request: Request): Mode {
    match request
    case SearchRequest(query, _, _) => ModeOf(Some(query))
    case TrendingRequest(_, _) => TrendingFeed
  }

  /** `page` holds the items of `feed` from `offset` on, and reports the
      feed's length as the total. */
  predicate IsSlice(page: Page, feed: seq<Gif>, offset: nat) {
    && offset + |page.data| <= |feed|
    && page.data == feed[offset..offset + |page.data|]
    && page.totalCount == |feed|
  }

  /** A provider that may fail, but whose every answer is a slice of the
      requested mode's feed. */
  ghost predicate Serves(respond: Request -> Result<Page>, feeds: Mode -> seq<Gif>) {
    forall request :: respond(request).Ok? ==> IsSlice(respond(request).value, feeds(RequestMode(request)), request.offset)
  }

  predicate Idle(s: State) {
    !s.isLoading && !s.isLoadingMore
  }

  /** The last `offset` items of the list are the first `offset` items of
      the current feed. */
  ghost predicate Coherent(s: State, feeds: Mode -> seq<Gif>) {
    var feed := feeds(ModeOf(s.currentQuery));
    s.offset <= |s.gifs| && s.offset <= |feed| && s.gifs[|s.gifs| - s.offset..] == feed[..s.offset]
  }

  /** The whole list is counted by the offset, and hasMore is exact. */
  ghost predicate Exact(s: State, feeds: Mode -> seq<Gif>) {
    s.offset == |s.gifs| && s.hasMore == (s.offset < |feeds(ModeOf(s.currentQuery))|)
  }

  /** The calls a component makes through the hook's interface. */
  datatype Op = SearchOp(query: string) | TrendingOp | LoadMoreOp | ClearErrorOp

  /** The part of `op` before its `await`. */
  function Begin(s: State, op: Op): Start {
    match op
    case SearchOp(query) => SearchStarted(s, query, true)
    case TrendingOp => TrendingStarted(s, true)
    case LoadMoreOp => LoadMoreStarted(s)
    case ClearErrorOp => Start(None, ErrorCleared(s))
  }

  /** `op` run to completion against `respond`. */
  function Run(s: State, op: Op, respond: Request -> Result<Page>): State {
    var start := Begin(s, op);
    if start.call.None? then start.next
    else Settled(start.next, start.call.value, respond(start.call.value.request))
  }

  function RunAll(s: State, ops: seq<Op>, respond: Request -> Result<Page>): State
    decreases |ops|
  {
    if ops == [] then s else RunAll(Run(s, ops[0], respond), ops[1..], respond)
  }

  /** `op` starts a reset whose request fails. */
  predicate FailedReset(s: State, op: Op, respond: Request -> Result<Page>) {
    var start := Begin(s, op);
    start.call.Some? && start.call.value.reset && respond(start.call.value.request).Throws?
  }

  ghost predicate NoFailedReset(s: State, ops: seq<Op>, respond: Request -> Result<Page>)
    decreases |ops|
  {
    ops == [] || (!FailedReset(s, ops[0], respond) && NoFailedReset(Run(s, ops[0], respond), ops[1..], respond))
  }

  /** The first page the server renders with: a prefix of the trending feed. */
  lemma InitialIsCoherent(initialGifs: seq<Gif>, feeds: Mode -> seq<Gif>)
    requires |initialGifs| < |feeds(TrendingFeed)| && initialGifs == feeds(TrendingFeed)[..|initialGifs|]
    ensures Idle(Initial(initialGifs)) && Coherent(Initial(initialGifs), feeds) && Exact(Initial(initialGifs), feeds)
  {
    assert initialGifs[0..] == initialGifs;
  }

  /** Starting a call that fetches leaves the session ready for it: the
      call reads the current feed from the current offset, and the session
      is still coherent (a reset has zeroed the offset but kept the list;
      an append has changed neither). */
  lemma BeginPrepares(s: State, op: Op, feeds: Mode -> seq<Gif>)
    requires Idle(s) && Coherent(s, feeds)
    ensures var start := Begin(s, op);
      && (start.call.None? ==>
            Idle(start.next) && Coherent(start.next, feeds) && (Exact(s, feeds) ==> Exact(start.next, feeds)))
      && (start.call.Some? ==>
            var call := start.call.value;
            && ModeOf(start.next.currentQuery) == RequestMode(call.request)
            && call.request.offset == start.next.offset
            && Coherent(start.next, feeds)
            && (call.reset ==> start.next.offset == 0 && start.next.gifs == s.gifs)
            && (!call.reset && Exact(s, feeds) ==> Exact(start.next, feeds)))
  {
  }

  /** Settling a call that reads the current feed from the current offset
      keeps the session coherent; it keeps the list counted and hasMore
      exact unless it is a failed reset, which on a non-empty list leaves
      the list uncounted. */
  lemma SettleKeepsCoherent(t: State, call: Call, outcome: Result<Page>, feeds: Mode -> seq<Gif>)
    requires ModeOf(t.currentQuery) == RequestMode(call.request) && call.request.offset == t.offset
    requires Coherent(t, feeds)
    requires call.reset ==> t.offset == 0
    requires outcome.Ok? ==> IsSlice(outcome.value, feeds(RequestMode(call.request)), call.request.offset)
    ensures var r := Settled(t, call, outcome);
      && Idle(r) && Coherent(r, feeds)
      && (outcome.Ok? && (call.reset || Exact(t, feeds)) ==> Exact(r, feeds))
      && (outcome.Throws? && !call.reset && Exact(t, feeds) ==> Exact(r, feeds))
      && (outcome.Throws? && call.reset && t.gifs != [] ==> r.offset != |r.gifs|)
  {
    var r := Settled(t, call, outcome);
    var feed := feeds(RequestMode(call.request));
    if outcome.Ok? {
      var data := outcome.value.data;
      if call.reset {
        assert r.gifs[|r.gifs| - r.offset..] == data;
      } else {
        var n := |t.gifs| - t.offset;
        assert r.gifs[n..] == t.gifs[n..] + data;
        assert feed[..t.offset + |data|] == feed[..t.offset] + feed[t.offset..t.offset + |data|];
      }
    }
  }

  /** One call, run to completion, keeps the list's tail a prefix of the
      current feed; it keeps the whole list counted and hasMore exact unless
      it is a reset whose request fails. */
  lemma {:induction false} RunKeepsCoherent(s: State, op: Op, respond: Request -> Result<Page>, feeds: Mode -> seq<Gif>)
    requires Serves(respond, feeds) && Idle(s) && Coherent(s, feeds)
    ensures var r := Run(s, op, respond);
      && Idle(r) && Coherent(r, feeds)
      && (Exact(s, feeds) && !FailedReset(s, op, respond) ==> Exact(r, feeds))
  {
    BeginPrepares(s, op, feeds);
    var start := Begin(s, op);
    if start.call.Some? {
      var call := start.call.value;
      SettleKeepsCoherent(start.next, call, respond(call.request), feeds);
    }
  }

  /** A reset whose request fails keeps the old list with the offset at 0,
      so on a non-empty list it always leaves the list uncounted. */
  lemma FailedResetLeavesListUncounted(s: State, op: Op, respond: Request -> Result<Page>)
    requires FailedReset(s, op, respond)
    ensures Run(s, op, respond).gifs == s.gifs && Run(s, op, respond).offset == 0
    ensures s.gifs != [] ==> Run(s, op, respond).offset != |Run(s, op, respond).gifs|
  {
  }

  /** Any sequence of calls, each settling before the next, keeps the
      session coherent with the feeds. */
  lemma {:induction false} RunAllKeepsCoherent(s: State, ops: seq<Op>, respond: Request -> Result<Page>, feeds: Mode -> seq<Gif>)
    requires Serves(respond, feeds) && Idle(s) && Coherent(s, feeds)
    ensures Idle(RunAll(s, ops, respond)) && Coherent(RunAll(s, ops, respond), feeds)
    decreases |ops|
  {
    if ops != [] {
      RunKeepsCoherent(s, ops[0], respond, feeds);
      RunAllKeepsCoherent(Run(s, ops[0], respond), ops[1..], respond, feeds);
    }
  }

  /** From the server-rendered first page, as long as no reset fails, the
      list is exactly the first `offset` items of the current feed and
      hasMore says whether the feed has more; so loadMore fetches exactly
      when items remain. */
  lemma {:induction false} RunAllShowsFeedPrefix(s: State, ops: seq<Op>, respond: Request -> Result<Page>, feeds: Mode -> seq<Gif>)
    requires Serves(respond, feeds) && Idle(s) && Coherent(s, feeds) && Exact(s, feeds)
    requires NoFailedReset(s, ops, respond)
    ensures var r := RunAll(s, ops, respond);
      && r.offset <= |feeds(ModeOf(r.currentQuery))| && r.gifs == feeds(ModeOf(r.currentQuery))[..r.offset]
      && (LoadMoreStarted(r).call.Some? <==> |r.gifs| < |feeds(ModeOf(r.currentQuery))|)
    decreases |ops|
  {
    if ops == [] {
      assert s.gifs[|s.gifs| - s.offset..] == s.gifs;
    } else {
      RunKeepsCoherent(s, ops[0], respond, feeds);
      RunAllShowsFeedPrefix(Run(s, ops[0], respond), ops[1..], respond, feeds);
    }
  }
}
