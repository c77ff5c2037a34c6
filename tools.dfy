/**
 * The tool operations that work step by step: building a query, fetching one
 * page, the two page loops, the formatter loop and the alert tool. Each is
 * proved against the specification functions of Pagination, Api and Formatter.
 * The service is passed in as `getPage` (GET of a list endpoint) or `post`.
 */
module Tools {
  import opened Wrappers
  import opened Text
  import opened Pagination
  import opened Api
  import opened Formatter

  /** Builds the filtered-posts query: the four fixed keys, then each truthy filter inserted in turn. */
  method BuildFilteredParams(apiKey: Option<string>, kind: string, page: int, currencies: Option<string>,
                             filter: Option<string>, regions: Option<string>, public: bool)
    returns (params: map<string, Value>)
    ensures params == FilteredNewsParams(apiKey, kind, page, currencies, filter, regions, public)
  {
    var fixed := map["auth_token" := AuthToken(apiKey), "kind" := Str(kind), "page" := Int(page),
                     "public" := Str(if public then "true" else "false")];
    params := fixed;
    if Truthy(currencies) {
      params := params["currencies" := Str(currencies.value)];
    }
    assert params == WithOptional(fixed, "currencies", currencies);
    ghost var withCurrencies := params;
    if Truthy(filter) {
      params := params["filter" := Str(filter.value)];
    }
    assert params == WithOptional(withCurrencies, "filter", filter);
    ghost var withFilter := params;
    if Truthy(regions) {
      params := params["regions" := Str(regions.value)];
    }
    assert params == WithOptional(withFilter, "regions", regions);
  }

  /** Fetches one page of filtered posts; any failure yields the empty list. */
  method FetchFilteredNewsPage(getPage: Request -> PageResponse, apiKey: Option<string>, kind: string, page: int,
                               currencies: Option<string>, filter: Option<string>, regions: Option<string>,
                               public: bool)
    returns (items: seq<NewsItem>)
    ensures items == ItemsOf(FilteredResponses(getPage, apiKey, kind, currencies, filter, regions, public))(page)
  {
    var params := BuildFilteredParams(apiKey, kind, page, currencies, filter, regions, public);
    var response := getPage(Request(Get, PostsUrl, params, map[]));
    items := PageItems(response);
    FilteredPageAt(getPage, apiKey, kind, currencies, filter, regions, public, page);
  }

  /** Fetches one page of portfolio posts; any failure yields the empty list. */
  method FetchPortfolioNewsPage(getPage: Request -> PageResponse, apiKey: Option<string>, page: int)
    returns (items: seq<NewsItem>)
    ensures items == ItemsOf(PortfolioResponses(getPage, apiKey))(page)
  {
    var params := map["auth_token" := AuthToken(apiKey), "page" := Int(page)];
    var response := getPage(Request(Get, PortfolioUrl, params, map[]));
    items := PageItems(response);
    PortfolioPageAt(getPage, apiKey, page);
  }

  /**
   * Formats a list of news items: the sentinel for an empty list, otherwise
   * one "- <title>" line per item, then stripped.
   */
  method ConcatenateNews(items: seq<NewsItem>) returns (text: string)
    ensures text == FormatNews(items)
    ensures text == NoNewsSentinel <==> items == []
  {
    var concatenated := "";
    if items == [] {
      return NoNewsSentinel;
    }
    var i := 0;
    while i < |items|
      invariant 0 <= i <= |items|
      invariant concatenated == Rendered(items[..i])
    {
      RenderedStep(items, i);
      concatenated := concatenated + ("- " + DisplayedTitle(items[i])) + "\n";
      i := i + 1;
    }
    assert items[..i] == items;
    text := Strip(concatenated);
    SentinelIffEmpty(items);
  }

  /**
   * The filtered-news tool: pages 1..numPages in order, stopping at the first
   * empty page, then formatted. `requested` records the page numbers fetched.
   */
  method GetFilteredNews(getPage: Request -> PageResponse, apiKey: Option<string>, kind: string, numPages: int,
                         currencies: Option<string>, filter: Option<string>, regions: Option<string>, public: bool)
    returns (text: string, ghost requested: seq<int>)
    ensures requested == Requested(ItemsOf(FilteredResponses(getPage, apiKey, kind, currencies, filter, regions, public)), numPages)
    ensures text == FormatNews(Paginate(ItemsOf(FilteredResponses(getPage, apiKey, kind, currencies, filter, regions, public)), numPages))
    ensures numPages <= 0 ==> requested == [] && text == NoNewsSentinel
  {
    ghost var fetch := ItemsOf(FilteredResponses(getPage, apiKey, kind, currencies, filter, regions, public));
    var allNews: seq<NewsItem> := [];
    requested := [];
    var page := 1;
    while page <= numPages
      invariant 1 <= page
      invariant allNews + CollectFrom(fetch, page, numPages) == Paginate(fetch, numPages)
      invariant requested + PagesFrom(fetch, page, numPages) == Requested(fetch, numPages)
      decreases numPages - page
    {
      var newsItems := FetchFilteredNewsPage(getPage, apiKey, kind, page, currencies, filter, regions, public);
      requested := requested + [page];
      if newsItems == [] {
        break;
      }
      allNews := allNews + newsItems;
      page := page + 1;
    }
    assert allNews == Paginate(fetch, numPages) && requested == Requested(fetch, numPages);
    if numPages <= 0 {
      NoRequestsWithoutPages(fetch, numPages);
    }
    text := ConcatenateNews(allNews);
  }

  /**
   * The portfolio-news tool: the same page loop over the portfolio endpoint.
   * `requested` records the page numbers fetched.
   */
  method GetPortfolioNews(getPage: Request -> PageResponse, apiKey: Option<string>, numPages: int)
    returns (text: string, ghost requested: seq<int>)
    ensures requested == Requested(ItemsOf(PortfolioResponses(getPage, apiKey)), numPages)
    ensures text == FormatNews(Paginate(ItemsOf(PortfolioResponses(getPage, apiKey)), numPages))
    ensures numPages <= 0 ==> requested == [] && text == NoNewsSentinel
  {
    ghost var fetch := ItemsOf(PortfolioResponses(getPage, apiKey));
    var allNews: seq<NewsItem> := [];
    requested := [];
    var page := 1;
    while page <= numPages
      invariant 1 <= page
      invariant allNews + CollectFrom(fetch, page, numPages) == Paginate(fetch, numPages)
      invariant requested + PagesFrom(fetch, page, numPages) == Requested(fetch, numPages)
      decreases numPages - page
    {
      var newsItems := FetchPortfolioNewsPage(getPage, apiKey, page);
      requested := requested + [page];
      if newsItems == [] {
        break;
      }
      allNews := allNews + newsItems;
      page := page + 1;
    }
    assert allNews == Paginate(fetch, numPages) && requested == Requested(fetch, numPages);
    if numPages <= 0 {
      NoRequestsWithoutPages(fetch, numPages);
    }
    text := ConcatenateNews(allNews);
  }

  /**
   * The alert tool: a direction other than "up" or "down" is rejected with an
   * error object before anything is sent; otherwise one POST is sent and its
   * parsed reply returned, or an empty object on failure. `sent` records the
   * requests made.
   */
  method AddPortfolioAlert(post: Request -> ObjectResponse, apiKey: Option<string>, currency: string, price: real,
                           direction: string)
    returns (reply: map<string, Value>, ghost sent: seq<Request>)
    ensures !ValidDirection(direction) ==> sent == [] && reply == map["error" := Str(DirectionError)]
    ensures ValidDirection(direction) ==>
              |sent| == 1 && AlertAddRequest(apiKey, currency, price, direction) == Success(sent[0]) &&
              reply == ObjectReply(post(sent[0]))
  {
    sent := [];
    var request := AlertAddRequest(apiKey, currency, price, direction);
    if request.Failure? {
      reply := map["error" := Str(request.error)];
      return;
    }
    sent := [request.value];
    reply := ObjectReply(post(request.value));
  }
}
