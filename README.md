# GIF explorer: paginated search session, in Dafny

This project models the data-fetching core of the GIF explorer web app. It
has three parts:

- **The server actions** (`app/actions.ts`, module `Actions`). The Giphy
  gateway `fetchFromGiphy` rejects a missing API key, a non-ok transport
  response and an envelope whose `meta.status` is not 200. The actions
  `searchGifs` and `getTrendingGifs` build the endpoint and project the
  envelope to `{ data, totalCount }`. They are pure functions. Their input
  is a `Server` value: the API key, `encodeURIComponent` and what `fetch`
  settles to for each URL.
- **The search hook** (`components/use-gif-search.ts`, module `GifSearch`).
  The session holds `gifs`, `isLoading`, `isLoadingMore`, `error`,
  `hasMore`, `offsetRef` and `currentQueryRef`. It has four operations:
  `search`, `loadTrending`, `loadMore` and `clearError`.
  - Each asynchronous operation is split at its `await`. The first part
    returns the request it issues as a `Call`, or `None` when it fetches
    nothing. `Settle` runs the code after the `await`, given what the
    server action settled to.
  - Pure step functions on a `State` value give the meaning. The `Session`
    class keeps the same fields as mutable state, and each of its methods
    is proved to perform exactly the matching step.
- **The explorer's handlers** (`components/gif-explorer.tsx`, module
  `Explorer`): `handleSearch`, `handleRetry` and `handleLoadMore`, plus the
  `searchQuery` state they keep beside the hook.

Module `Js` (file js.dfy) holds the JavaScript pieces the core depends on:
`null`, thrown values, `String.prototype.trim` and the decimal rendering of
a number. Module `FeedCoherence` states what the hook's list means when
calls run one at a time and the provider pages through a fixed feed. In
that setting the tail of the list is always a prefix of the current feed.
Unless a reset fails, the whole list is that prefix and `hasMore` is exact.

Three behaviours of the code are easy to get wrong, and the model follows the code:

- A reset does not clear the list when it starts. A failed reset keeps the
  old list, with the offset at 0 and the new query current.
- `loadMore` does not look at `isLoading`, so the two loading flags are not
  kept mutually exclusive.
- A non-ok transport response fails with `"Giphy API error: "` followed by
  the status text.

## Model

| member | source | states |
|---|---|---|
| `Js.Trim` | app/actions.ts:36 | `trim()` is empty exactly when every character is ECMA-262 white space; otherwise the result neither starts nor ends with white space |
| `Js.TrimKeepsAPiece` | app/actions.ts:36 | `trim()` is the piece of the string starting after its leading white space, and every character outside that piece is white space |
| `Js.IsBlank` | app/actions.ts:36 | `!s.trim()` holds exactly when every character of `s` is white space (the empty string included) |
| `Js.Decimal` | app/actions.ts:40 | `${n}` is a non-empty digit string without a leading zero that reads back as `n` |
| `Actions.Rethrown` | app/actions.ts:29-32 | the catch clause rethrows an Error with the same message, or with "Failed to fetch from Giphy API" for a non-Error value |
| `Actions.Attempt` | app/actions.ts:15-28 | the try block resolves exactly when the fetch resolves ok, the body parses and `meta.status` is 200, and then to that envelope |
| `Actions.FetchFromGiphy` | app/actions.ts:8-33 | no key: the "not configured" Error. Otherwise, in check order: a rejected fetch is rethrown; non-ok gives "Giphy API error: " + statusText; a rejected body is rethrown; status other than 200 gives `meta.msg`; else the envelope. Every failure is an Error |
| `Actions.HasApiKey` | app/actions.ts:9 | `!API_KEY` holds exactly for an unset key or the empty string |
| `Actions.RequestUrl` | app/actions.ts:13 | the URL is the API base, then the endpoint unchanged, then `&api_key=` and the key as the last parameter |
| `Actions.SearchEndpoint` | app/actions.ts:40 | the endpoint starts with `/search?q=` and ends with `&rating=g`; the encoded query is the value of `q` and each paging value follows its own name (`SearchEndpointParts`); all three can be read back (`EndpointsReadBack`) |
| `Actions.TrendingEndpoint` | app/actions.ts:49 | the endpoint starts with `/trending?offset=` and ends with `&rating=g`; each paging value follows its own name (`TrendingEndpointParts`) and can be read back (`EndpointsReadBack`) |
| `Actions.ToPage` | app/actions.ts:42-45 | success maps to `data` unchanged and `totalCount = pagination.total_count`; a failure passes through unchanged |
| `Actions.SearchGifs` | app/actions.ts:35-46 | a blank query fails with "Search query cannot be empty" before any request; otherwise the encoded query is sent to the search endpoint; failures are Errors |
| `Actions.GetTrendingGifs` | app/actions.ts:48-55 | the trending endpoint is fetched and projected; without a key it fails with the "not configured" Error |
| `Actions.Invoke` | app/actions.ts:35-55 | the browser's call of either action only ever throws Errors; a blank search is always rejected |
| `Actions.MissingKeyNeverFetches` | app/actions.ts:9-11 | without a key the outcome does not depend on `fetch` or the encoder, and is the "not configured" Error |
| `Actions.BlankSearchNeverFetches` | app/actions.ts:36-38 | a blank search has the same outcome under every server configuration and transport |
| `Actions.EndpointsReadBack` | app/actions.ts:40 | search endpoints determine the encoded query, offset and limit; trending endpoints determine offset and limit; no trending endpoint equals a search endpoint |
| `Actions.SearchEndpointParts` | app/actions.ts:40 | the search endpoint is exactly `/search?q=` followed by the encoded query, then `&offset=<offset>&limit=<limit>&rating=g`: the whole value of `q` is the encoded query, and each paging value follows its own name |
| `Actions.TrendingEndpointParts` | app/actions.ts:49 | the trending endpoint is exactly `/trending?offset=<offset>` followed by `&limit=<limit>&rating=g` |
| `Actions.DefaultTrendingEndpoint` | app/actions.ts:48-49 | with the default offset 0 and limit 24 the endpoint is `/trending?offset=0&limit=24&rating=g` |
| `GifSearch.Initial` | components/use-gif-search.ts:21-28 | the list is the initial GIFs, counted by the offset; hasMore is set, nothing loads, no error, no current query; the first loadMore continues trending after the initial list |
| `GifSearch.IsDuplicate` | components/use-gif-search.ts:32 | only a reset search for the truthy current query is a duplicate; for that query, a search is a duplicate exactly when it resets |
| `GifSearch.ErrorCleared` | components/use-gif-search.ts:111-113 | the error becomes none and every other field is unchanged |
| `GifSearch.ErrorMessage` | components/use-gif-search.ts:58-60 | the stored error is an Error's own message, or the generic fallback for any other thrown value |
| `GifSearch.SearchStarted` | components/use-gif-search.ts:30-45 | suppressed exactly for a reset with the non-empty current query, and then nothing changes; otherwise one request from 0 (reset) or from the offset (append); a reset sets the query, isLoading and offset 0; an append sets isLoadingMore; the error is cleared; the list and hasMore are untouched |
| `GifSearch.TrendingStarted` | components/use-gif-search.ts:68-78 | never suppressed; the same as a search, except that a reset clears the current query |
| `GifSearch.ContinuesSearch` | components/use-gif-search.ts:104 | `if (currentQueryRef.current)` holds exactly when the current query is neither null nor the empty string |
| `GifSearch.LoadMoreStarted` | components/use-gif-search.ts:101-109 | a no-op exactly when isLoadingMore is set or hasMore is not; otherwise one append from the current offset, a search exactly when the current query is truthy; isLoading is not consulted |
| `GifSearch.Settled` | components/use-gif-search.ts:47-65 | success: a reset replaces the list, an append keeps the old items first and the page after them; offset = start offset + page length; hasMore = offset < totalCount, even for a short page. Failure: only the error changes. Both flags are always cleared |
| `GifSearch.Session.constructor` | components/use-gif-search.ts:21-28 | initial list as given, offset its length, hasMore true, flags false, no error, no current query |
| `GifSearch.Session.Search` | components/use-gif-search.ts:30-45 | performs `SearchStarted` on the session's fields and returns its request |
| `GifSearch.Session.LoadTrending` | components/use-gif-search.ts:68-78 | performs `TrendingStarted` |
| `GifSearch.Session.LoadMore` | components/use-gif-search.ts:101-109 | performs `LoadMoreStarted` by delegating to `Search` or `LoadTrending` |
| `GifSearch.Session.ClearError` | components/use-gif-search.ts:111-113 | only the error changes, to none |
| `GifSearch.Session.Settle` | components/use-gif-search.ts:47-98 | performs `Settled` for the call and its outcome: the code after the `await` of `search` (lines 47-65) or of `loadTrending` (lines 80-98) |
| `GifSearch.RepeatedSearchFetchesOnce` | components/use-gif-search.ts:31-34 | a second reset search for the same non-empty query issues no request, whether the first is in flight or has settled |
| `GifSearch.SuccessKeepsOffsetAtLength` | components/use-gif-search.ts:56-57 | after a successful reset, or an append begun at the list's length, offset equals the list length and hasMore is length < totalCount |
| `GifSearch.FailedResetKeepsOldList` | components/use-gif-search.ts:38-61 | a failed reset search keeps the old list and hasMore, leaves offset 0 and the new query current, and sets the error |
| `GifSearch.ActionFailureShowsItsMessage` | components/use-gif-search.ts:48 | a failure coming from the server actions shows the action's own message, with the server/client boundary taken as transparent (see Left out) |
| `GifSearch.FailedSearchThenLoadMoreAppendsFirstPage` | components/use-gif-search.ts:38-61 | after a failed reset search on a non-empty list with more to load, loadMore fetches the new query's page from offset 0 and appends it after the old list, which the offset then does not count |
| `GifSearch.TwoPagesOfCats` | components/use-gif-search.ts:50-57 | search("cats") with 24 of 100 items, then loadMore with 24 more, gives 48 items in order, offset 48 and hasMore |
| `FeedCoherence.InitialIsCoherent` | app/page.tsx:5-7 | a server-rendered first trending page that is shorter than the feed starts the session coherent and exact |
| `FeedCoherence.BeginPrepares` | components/use-gif-search.ts:36-45 | a started call reads the current feed from the current offset, and the session stays coherent |
| `FeedCoherence.SettleKeepsCoherent` | components/use-gif-search.ts:50-57 | settling keeps the list's tail equal to the feed's prefix; it keeps the list counted and hasMore exact, except after a failed reset, which on a non-empty list leaves the list uncounted |
| `FeedCoherence.RunKeepsCoherent` | components/use-gif-search.ts:30-113 | one call run to completion keeps the session idle and coherent; exactness survives every call except a failed reset |
| `FeedCoherence.FailedResetLeavesListUncounted` | components/use-gif-search.ts:38-61 | a reset whose request fails keeps the old list with the offset at 0, so a non-empty list is left uncounted |
| `FeedCoherence.RunAllKeepsCoherent` | components/use-gif-search.ts:30-113 | any sequence of calls, each settling before the next, keeps the session coherent |
| `FeedCoherence.RunAllShowsFeedPrefix` | components/use-gif-search.ts:101-109 | with no failed reset, the list is exactly the first `offset` items of the current feed, and loadMore fetches exactly when items remain |
| `Explorer.SearchHandled` | components/gif-explorer.tsx:20-27 | a query that trims to nothing loads trending from offset 0; any other query is searched untrimmed unless already current; never a search request for a blank query |
| `Explorer.RetryHandled` | components/gif-explorer.tsx:37-44 | the error ends cleared; an empty searchQuery reloads trending; a non-empty one is searched again, and fetches nothing exactly when it is the current query |
| `Explorer.RetryAfterFailedSearchIssuesNoRequest` | components/gif-explorer.tsx:37-40 | after a failed search for q, retrying q fetches nothing, clears the error and leaves the earlier list with offset 0 |
| `Explorer.RetryAfterFailedTrendingRefetches` | components/gif-explorer.tsx:41-43 | after a failed trending load, retry issues a fresh trending request |
| `Explorer.Explorer.constructor` | components/gif-explorer.tsx:16-18 | a fresh hook session over the initial list and an empty searchQuery |
| `Explorer.Explorer.HandleSearch` | components/gif-explorer.tsx:20-27 | records the query as searchQuery, then performs `SearchHandled` on the hook |
| `Explorer.Explorer.HandleRetry` | components/gif-explorer.tsx:37-44 | performs `RetryHandled` with the current searchQuery, which it does not change |
| `Explorer.Explorer.HandleLoadMore` | components/gif-explorer.tsx:46-48 | performs the hook's loadMore and nothing else |

## Left out

- Rendering and styling are not modelled: the grid, cards, modal, empty
  states, skeletons, layout and error page. The explorer's
  `handleGifClick` and `handleModalClose` only choose which GIF the modal
  shows, so they are left out too.
- The search bar's 600 ms debounce is not modelled, because it is driven by
  timers and DOM events.
- The constant placeholder image in `lib/image-utils.ts` is not modelled.
- `fetch`, `response.json()`, `process.env.GIPHY_API_KEY` and
  `encodeURIComponent` are foreign. They are inputs (the `Server` value),
  and any body that is not a well-formed envelope is one rejection of
  `response.json()`. `console.error` is left out.
- Overlapping calls are not analysed. A `Call` carries what its closure
  captured, so interleavings can be written down, but no property is
  proved about stale responses.
- React's scheduling is not modelled. State updates take effect at once,
  and `loadMore` reads the current `isLoadingMore` and `hasMore` rather
  than the values captured at the last render.
- A GIF record keeps only `id` and `title`, because the core never looks
  inside one. Only `data`, `pagination.total_count`, `meta.status` and
  `meta.msg` of the envelope are used.
- Offsets and limits are non-negative integers, not JavaScript numbers.
  `meta.msg` is always a string.
- The default parameters of the actions appear only as constants. The hook
  always passes an offset and a limit of 24.
- ActionFailureShowsItsMessage: the `'use server'` boundary between the
  actions and the hook is taken as transparent, so an action's Error reaches
  the hook with its own message, as in development builds. Production builds
  of the framework replace that message with a generic one and a digest
  before it reaches the client. The framework's serialisation is not
  modelled.
- Strings are sequences of Unicode scalar values, not of UTF-16 code units.
  A query holding an unpaired surrogate cannot be written, so the `URIError`
  that `encodeURIComponent` throws on it (outside `fetchFromGiphy`'s `try`)
  is not modelled; the encoder is total.
