/** The server actions of app/actions.ts: the Giphy gateway `fetchFromGiphy`
    and the two actions the browser calls, `searchGifs` and
    `getTrendingGifs`. The environment lookup, `encodeURIComponent` and
    `fetch` are foreign; they reach the model as the fields of a `Server`. */
module Actions {
  import opened Js

  const GiphyApiBase := "https://api.giphy.com/v1/gifs"
  const NotConfiguredMessage := "Giphy API key is not configured server-side (GIPHY_API_KEY)."
  const ApiErrorPrefix := "Giphy API error: "
  const FetchFailedMessage := "Failed to fetch from Giphy API"
  const EmptyQueryMessage := "Search query cannot be empty"
  const DefaultOffset: nat := 0
  const DefaultLimit: nat := 24

  /** A GIF record. Nothing in the core looks inside one; it is carried
      from the provider's envelope to the page unchanged. */
  datatype Gif = Gif(id: string, title: string)

  datatype Pagination = Pagination(offset: int, totalCount: int, count: int)
  datatype Meta = Meta(status: int, msg: string, responseId: string)

  /** The provider's response envelope. */
  datatype GifSearchResponse = GifSearchResponse(data: seq<Gif>, pagination: Pagination, meta: Meta)

  /** What `response.json()` settles to: an envelope, or a rejection (a body
      that is not JSON, or not shaped like an envelope). */
  datatype Body = Json(envelope: GifSearchResponse) | BodyRejects(thrown: Thrown)

  datatype Response = Response(ok: bool, statusText: string, body: Body)

  /** What `fetch(url)` settles to. */
  datatype FetchResult = Resolved(response: Response) | Rejected(thrown: Thrown)

  /** An async call's outcome: the value it resolves to, or what it throws. */
  datatype Result<+T> = Ok(value: T) | Throws(thrown: Thrown)

  /** What both actions resolve to: `{ data, totalCount }`. */
  datatype Page = Page(data: seq<Gif>, totalCount: int)

  /** The server's environment: `process.env.GIPHY_API_KEY` and the two
      foreign functions the actions call. */
  datatype Server = Server(apiKey: Option<string>, encodeURIComponent: string -> string, fetch: string -> FetchResult)

  /** An invocation of one of the two actions, as the browser makes it. */
  datatype Request =
    | SearchRequest(query: string, offset: nat, limit: nat)
    | TrendingRequest(offset: nat, limit: nat)

  /** `!API_KEY` is false: the key is defined and not the empty string. */
  predicate HasApiKey(apiKey: Option<string>): (r: bool)
    ensures !r <==> apiKey == None || apiKey == Some("")
  {
    apiKey.Some? && apiKey.value != ""
  }

  /** The URL fetchFromGiphy requests: the API base, the endpoint as given,
      then the key as the last parameter. */
  function RequestUrl(apiKey: string, endpoint: string): (r: string)
    ensures |GiphyApiBase| + |endpoint| <= |r| && r[..|GiphyApiBase|] == GiphyApiBase
    ensures r[|GiphyApiBase|..|GiphyApiBase| + |endpoint|] == endpoint
    ensures r[|GiphyApiBase| + |endpoint|..] == "&api_key=" + apiKey
  {
    GiphyApiBase + endpoint + "&api_key=" + apiKey
  }

  /** The catch clause of fetchFromGiphy: whatever was thrown is thrown again
      as an Error with the same message, or with the generic fallback
      message when it was not an Error. */
  function Rethrown(thrown: Thrown): (r: Thrown)
    ensures r.ErrorObject?
    ensures thrown.ErrorObject? ==> r == thrown
    ensures thrown.OtherValue? ==> r.message == FetchFailedMessage
  {
    ErrorObject(if thrown.ErrorObject? then thrown.message else FetchFailedMessage)
  }

  /** The try block of fetchFromGiphy, given what `fetch(url)` settled to. */
  function Attempt(fetched: FetchResult): (r: Result<GifSearchResponse>)
    ensures r.Ok? <==> fetched.Resolved? && fetched.response.ok && fetched.response.body.Json?
                       && fetched.response.body.envelope.meta.status == 200
    ensures r.Ok? ==> r.value == fetched.response.body.envelope
  {
    match fetched
    case Rejected(thrown) => Throws(thrown)
    case Resolved(response) =>
      if !response.ok then Throws(ErrorObject(ApiErrorPrefix + response.statusText))
      else
        match response.body
        case BodyRejects(thrown) => Throws(thrown)
        case Json(envelope) =>
          if envelope.meta.status != 200 then Throws(ErrorObject(envelope.meta.msg))
          else Ok(envelope)
  }

  /** fetchFromGiphy(endpoint). Without an API key it fails before a URL is
      built or `fetch` is consulted; otherwise it resolves to the envelope
      exactly when the transport, the body and the envelope status all
      succeed, and every failure is an Error whose message names the first
      check that failed. */
  function FetchFromGiphy(server: Server, endpoint: string): (r: Result<GifSearchResponse>)
    ensures !HasApiKey(server.apiKey) ==> r == Throws(ErrorObject(NotConfiguredMessage))
    ensures r.Throws? ==> r.thrown.ErrorObject?
    ensures HasApiKey(server.apiKey) ==>
      var fetched := server.fetch(RequestUrl(server.apiKey.value, endpoint));
      && (fetched.Rejected? ==> r == Throws(Rethrown(fetched.thrown)))
      && (fetched.Resolved? && !fetched.response.ok ==>
            r == Throws(ErrorObject(ApiErrorPrefix + fetched.response.statusText)))
      && (fetched.Resolved? && fetched.response.ok && fetched.response.body.BodyRejects? ==>
            r == Throws(Rethrown(fetched.response.body.thrown)))
      && (fetched.Resolved? && fetched.response.ok && fetched.response.body.Json? ==>
            var envelope := fetched.response.body.envelope;
            r == if envelope.meta.status != 200 then Throws(ErrorObject(envelope.meta.msg)) else Ok(envelope))
  {
    if !HasApiKey(server.apiKey) then
      Throws(ErrorObject(NotConfiguredMessage))
    else
      var url := RequestUrl(server.apiKey.value, endpoint);
      match Attempt(server.fetch(url))
      case Ok(envelope) => Ok(envelope)
      case Throws(thrown) => Throws(Rethrown(thrown))
  }

  /** The search endpoint: the encoded query, then the paging parameters in
      decimal, then the fixed rating (laid out by SearchEndpointParts and
      read back by EndpointsReadBack). */
  function SearchEndpoint(encodedQuery: string, offset: nat, limit: nat): (r: string)
    ensures |r| > 19 && r[..10] == "/search?q=" && r[|r| - 9..] == "&rating=g"
  {
    "/search?q=" + encodedQuery + "&offset=" + Decimal(offset) + "&limit=" + Decimal(limit) + "&rating=g"
  }

  /** The trending endpoint: the paging parameters in decimal, then the
      fixed rating (laid out by TrendingEndpointParts and read back by
      EndpointsReadBack). */
  function TrendingEndpoint(offset: nat, limit: nat): (r: string)
    ensures |r| > 26 && r[..17] == "/trending?offset=" && r[|r| - 9..] == "&rating=g"
  {
    "/trending?offset=" + Decimal(offset) + "&limit=" + Decimal(limit) + "&rating=g"
  }

  /** The `{ data, totalCount }` both actions build from an envelope, or the
      gateway's failure unchanged. */
  function ToPage(fetched: Result<GifSearchResponse>): (r: Result<Page>)
    ensures r.Ok? <==> fetched.Ok?
    ensures r.Ok? ==> r.value.data == fetched.value.data && r.value.totalCount == fetched.value.pagination.totalCount
    ensures r.Throws? ==> r.thrown == fetched.thrown
  {
    match fetched
    case Ok(envelope) => Ok(Page(envelope.data, envelope.pagination.totalCount))
    case Throws(thrown) => Throws(thrown)
  }

  /** searchGifs(query, offset, limit): a blank query is rejected before the
      gateway is called; any other query is sent, encoded, to the search
      endpoint with the paging parameters. */
  function SearchGifs(server: Server, query: string, offset: nat, limit: nat): (r: Result<Page>)
    ensures IsBlank(query) ==> r == Throws(ErrorObject(EmptyQueryMessage))
    ensures !IsBlank(query) ==>
      r == ToPage(FetchFromGiphy(server, SearchEndpoint(server.encodeURIComponent(query), offset, limit)))
    ensures r.Throws? ==> r.thrown.ErrorObject?
  {
    if IsBlank(query) then
      Throws(ErrorObject(EmptyQueryMessage))
    else
      var endpoint := SearchEndpoint(server.encodeURIComponent(query), offset, limit);
      ToPage(FetchFromGiphy(server, endpoint))
  }

  /** getTrendingGifs(offset, limit). */
  function GetTrendingGifs(server: Server, offset: nat, limit: nat): (r: Result<Page>)
    ensures r == ToPage(FetchFromGiphy(server, TrendingEndpoint(offset, limit)))
    ensures r.Throws? ==> r.thrown.ErrorObject?
    ensures !HasApiKey(server.apiKey) ==> r == Throws(ErrorObject(NotConfiguredMessage))
  {
    ToPage(FetchFromGiphy(server, TrendingEndpoint(offset, limit)))
  }

  /** The browser's call of a server action. */
  function Invoke(server: Server, request: Request): (r: Result<Page>)
    ensures r.Throws? ==> r.thrown.ErrorObject?
    ensures request.SearchRequest? && IsBlank(request.query) ==> r == Throws(ErrorObject(EmptyQueryMessage))
  {
    match request
    case SearchRequest(query, offset, limit) => SearchGifs(server, query, offset, limit)
    case TrendingRequest(offset, limit) => GetTrendingGifs(server, offset, limit)
  }

  /** Without an API key neither action consults `fetch` or the encoder:
      two servers that differ only in those give the same outcome. */
  lemma MissingKeyNeverFetches(apiKey: Option<string>, enc1: string -> string, fetch1: string -> FetchResult,
                               enc2: string -> string, fetch2: string -> FetchResult, request: Request)
    requires !HasApiKey(apiKey)
    ensures Invoke(Server(apiKey, enc1, fetch1), request) == Invoke(Server(apiKey, enc2, fetch2), request)
    ensures request.TrendingRequest? || !IsBlank(request.query) ==>
      Invoke(Server(apiKey, enc1, fetch1), request) == Throws(ErrorObject(NotConfiguredMessage))
  {
  }

  /** A blank search is rejected whatever the server's configuration and
      transport: the emptiness check comes before the key check and before
      any request. */
  lemma BlankSearchNeverFetches(server1: Server, server2: Server, query: string, offset: nat, limit: nat)
    requires IsBlank(query)
    ensures SearchGifs(server1, query, offset, limit) == SearchGifs(server2, query, offset, limit)
  {
  }

  /** A string that ends in a non-digit followed by digits splits there in
      exactly one way. */
  lemma {:induction false} SplitTrailingDigits(a: string, d: string, b: string, e: string)
    requires |a| > 0 && !IsDigit(a[|a| - 1]) && AllDigits(d)
    requires |b| > 0 && !IsDigit(b[|b| - 1]) && AllDigits(e)
    requires a + d == b + e
    ensures a == b && d == e
  {
    assert a == (a + d)[..|a|] && b == (b + e)[..|b|];
    assert d == (a + d)[|a|..] && e == (b + e)[|b|..];
  }

  /** The paging tail `offset=<o>&limit=<l>&rating=g`, after a prefix that
      ends in a non-digit, can be read back: equal endpoints have equal
      prefixes, offsets and limits. */
  lemma PagingReadsBack(p1: string, o1: nat, l1: nat, p2: string, o2: nat, l2: nat)
    requires |p1| > 0 && !IsDigit(p1[|p1| - 1]) && |p2| > 0 && !IsDigit(p2[|p2| - 1])
    requires p1 + Decimal(o1) + "&limit=" + Decimal(l1) + "&rating=g"
          == p2 + Decimal(o2) + "&limit=" + Decimal(l2) + "&rating=g"
    ensures p1 == p2 && o1 == o2 && l1 == l2
  {
    var x1, x2 := p1 + Decimal(o1) + "&limit=", p2 + Decimal(o2) + "&limit=";
    var full := x1 + Decimal(l1) + "&rating=g";
    assert x1 + Decimal(l1) == full[..|full| - 9] == x2 + Decimal(l2);
    SplitTrailingDigits(x1, Decimal(l1), x2, Decimal(l2));
    assert p1 + Decimal(o1) == x1[..|x1| - 7] == p2 + Decimal(o2);
    SplitTrailingDigits(p1, Decimal(o1), p2, Decimal(o2));
  }

  /** Each endpoint carries its paging parameters (and the search endpoint
      its encoded query) recoverably, and a trending endpoint is never a
      search endpoint: only search sends `q`. */
  lemma EndpointsReadBack(e1: string, o1: nat, l1: nat, e2: string, o2: nat, l2: nat)
    ensures SearchEndpoint(e1, o1, l1) == SearchEndpoint(e2, o2, l2) ==> e1 == e2 && o1 == o2 && l1 == l2
    ensures TrendingEndpoint(o1, l1) == TrendingEndpoint(o2, l2) ==> o1 == o2 && l1 == l2
    ensures SearchEndpoint(e1, o1, l1) != TrendingEndpoint(o2, l2)
  {
    if SearchEndpoint(e1, o1, l1) == SearchEndpoint(e2, o2, l2) {
      var p1, p2 := "/search?q=" + e1 + "&offset=", "/search?q=" + e2 + "&offset=";
      PagingReadsBack(p1, o1, l1, p2, o2, l2);
      assert e1 == p1[10..|p1| - 8];
      assert e2 == p2[10..|p2| - 8];
    }
    if TrendingEndpoint(o1, l1) == TrendingEndpoint(o2, l2) {
      PagingReadsBack("/trending?offset=", o1, l1, "/trending?offset=", o2, l2);
    }
    assert SearchEndpoint(e1, o1, l1)[1] == 's';
    assert TrendingEndpoint(o2, l2)[1] == 't';
  }

  /** The search endpoint is `/search?q=` and the encoded query, followed
      by the paging parameters: the offset after `offset=`, the limit after
      `limit=`. */
  lemma SearchEndpointParts(encodedQuery: string, offset: nat, limit: nat)
    ensures var r := SearchEndpoint(encodedQuery, offset, limit);
      var head := "/search?q=" + encodedQuery;
      var paging := "&offset=" + Decimal(offset) + "&limit=" + Decimal(limit) + "&rating=g";
      && |head| + |paging| == |r| && r[..|head|] == head && r[|head|..] == paging
  {
    var head := "/search?q=" + encodedQuery;
    var paging := "&offset=" + Decimal(offset) + "&limit=" + Decimal(limit) + "&rating=g";
    assert SearchEndpoint(encodedQuery, offset, limit) == head + paging;
    SplitsAt(head, paging);
  }

  /** The trending endpoint is `/trending?offset=` and the offset, followed
      by the limit after `limit=` and the rating. */
  lemma TrendingEndpointParts(offset: nat, limit: nat)
    ensures var r := TrendingEndpoint(offset, limit);
      var head := "/trending?offset=" + Decimal(offset);
      var tail := "&limit=" + Decimal(limit) + "&rating=g";
      && |head| + |tail| == |r| && r[..|head|] == head && r[|head|..] == tail
  {
    var head := "/trending?offset=" + Decimal(offset);
    var tail := "&limit=" + Decimal(limit) + "&rating=g";
    assert TrendingEndpoint(offset, limit) == head + tail;
    SplitsAt(head, tail);
  }

  /** A concatenation splits back into its two parts. */
  lemma SplitsAt(a: string, b: string)
    ensures (a + b)[..|a|] == a && (a + b)[|a|..] == b
  {
  }

  /** The defaults: the first page of 24 trending GIFs, rated G. */
  lemma DefaultTrendingEndpoint()
    ensures TrendingEndpoint(DefaultOffset, DefaultLimit) == "/trending?offset=0&limit=24&rating=g"
  {
    assert Decimal(24) == Decimal(2) + ['4'];
  }
}
