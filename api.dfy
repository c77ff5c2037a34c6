/**
 * The data the tools exchange with the CryptoPanic REST service: query and
 * body values, requests, the two response shapes, the news item record, the
 * query parameters of the two paginated endpoints and the alert request.
 * The service itself is a function parameter wherever it is used.
 */
module Api {
  import opened Wrappers
  import opened Pagination

  /** A value in a query string or a JSON document; a float is carried as a `real`. */
  datatype Value =
    | Null
    | Bool(b: bool)
    | Str(s: string)
    | Int(i: int)
    | Num(r: real)
    | Arr(items: seq<Value>)
    | Obj(fields: map<string, Value>)

  datatype Verb = Get | Post

  datatype Request = Request(verb: Verb, url: string, params: map<string, Value>, body: map<string, Value>)

  /** The ways one HTTP exchange can fail; the tools treat them all alike. */
  datatype Failure = Transport | HttpStatus(code: int) | Malformed

  /** The `title` key of a news record: absent, JSON null, or a string. */
  datatype TitleField = Missing | JsonNull | Text(value: string)

  /** A news post; `title` is the only field the tools read. */
  datatype NewsItem = NewsItem(title: TitleField)

  /** A list endpoint's answer: its `results` array (None when the key is absent or null), or a failure. */
  datatype PageResponse = PageBody(results: Option<seq<NewsItem>>) | PageFailed(failure: Failure)

  /** A single-object endpoint's answer: the parsed JSON object, or a failure. */
  datatype ObjectResponse = ObjectBody(fields: map<string, Value>) | ObjectFailed(failure: Failure)

  const PostsUrl := "https://cryptopanic.com/api/v1/posts/"
  const PortfolioUrl := "https://cryptopanic.com/api/v1/portfolio/"
  const AlertsAddUrl := "https://cryptopanic.com/api/v1/portfolio/alerts/add/"

  const RequiredFilteredKeys: set<string> := {"auth_token", "kind", "page", "public"}
  const OptionalFilteredKeys: set<string> := {"currencies", "filter", "regions"}

  const DirectionError := "Direction must be 'up' or 'down'"

  /** The credential as it is placed in a query: the environment variable may be unset. */
  function AuthToken(apiKey: Option<string>): Value
  {
    match apiKey
    case None => Null
    case Some(key) => Str(key)
  }

  /** Python truthiness of an optional string argument: neither None nor empty. */
  predicate Truthy(arg: Option<string>)
  {
    arg.Some? && arg.value != ""
  }

  /** The query with `key` set to the argument when it is truthy, unchanged otherwise. */
  function WithOptional(params: map<string, Value>, key: string, arg: Option<string>): (r: map<string, Value>)
    ensures key in r <==> key in params || Truthy(arg)
    ensures Truthy(arg) ==> r[key] == Str(arg.value)
    ensures forall k :: k in params && k != key ==> k in r && r[k] == params[k]
    ensures forall k :: k in r && k != key ==> k in params
    ensures !Truthy(arg) ==> r == params
  {
    if Truthy(arg) then params[key := Str(arg.value)] else params
  }

  /**
   * The query of one page of filtered posts: the four fixed keys always, with
   * `public` rendered as "true" or "false", and each optional filter exactly
   * when its argument is truthy, carried unchanged.
   */
  function FilteredNewsParams(apiKey: Option<string>, kind: string, page: int, currencies: Option<string>,
                              filter: Option<string>, regions: Option<string>, public: bool): (params: map<string, Value>)
    ensures RequiredFilteredKeys <= params.Keys <= RequiredFilteredKeys + OptionalFilteredKeys
    ensures params["auth_token"] == AuthToken(apiKey)
    ensures params["kind"] == Str(kind) && params["page"] == Int(page)
    ensures params["public"] == Str("true") || params["public"] == Str("false")
    ensures params["public"] == Str("true") <==> public
    ensures "currencies" in params <==> Truthy(currencies)
    ensures "filter" in params <==> Truthy(filter)
    ensures "regions" in params <==> Truthy(regions)
    ensures "currencies" in params ==> params["currencies"] == Str(currencies.value)
    ensures "filter" in params ==> params["filter"] == Str(filter.value)
    ensures "regions" in params ==> params["regions"] == Str(regions.value)
  {
    var fixed := map["auth_token" := AuthToken(apiKey), "kind" := Str(kind), "page" := Int(page),
                     "public" := Str(if public then "true" else "false")];
    WithOptional(WithOptional(WithOptional(fixed, "currencies", currencies), "filter", filter), "regions", regions)
  }

  /** The GET request for one page of filtered posts. */
  function FilteredNewsRequest(apiKey: Option<string>, kind: string, page: int, currencies: Option<string>,
                               filter: Option<string>, regions: Option<string>, public: bool): Request
  {
    Request(Get, PostsUrl, FilteredNewsParams(apiKey, kind, page, currencies, filter, regions, public), map[])
  }

  /** The GET request for one page of portfolio posts: only the credential and the page number. */
  function PortfolioNewsRequest(apiKey: Option<string>, page: int): (r: Request)
    ensures r.verb == Get && r.url == PortfolioUrl && r.body == map[]
    ensures r.params.Keys == {"auth_token", "page"}
    ensures r.params["auth_token"] == AuthToken(apiKey) && r.params["page"] == Int(page)
  {
    Request(Get, PortfolioUrl, map["auth_token" := AuthToken(apiKey), "page" := Int(page)], map[])
  }

  /**
   * The items a page fetch hands back: the `results` array, or the empty list
   * when the key is absent or null or when the exchange failed in any way.
   */
  function PageItems(response: PageResponse): (items: seq<NewsItem>)
    ensures response.PageFailed? ==> items == []
    ensures response.PageBody? && response.results.None? ==> items == []
  {
    match response
    case PageFailed(_) => []
    case PageBody(None) => []
    case PageBody(Some(results)) => results
  }

  /** The page source seen by the loop, given what the service answers for each page number. */
  function ItemsOf(responses: int -> PageResponse): int -> seq<NewsItem>
  {
    page => PageItems(responses(page))
  }

  /** The service's answers to the filtered-posts request, page by page. */
  function FilteredResponses(getPage: Request -> PageResponse, apiKey: Option<string>, kind: string,
                             currencies: Option<string>, filter: Option<string>, regions: Option<string>,
                             public: bool): int -> PageResponse
  {
    page => getPage(FilteredNewsRequest(apiKey, kind, page, currencies, filter, regions, public))
  }

  /** The service's answers to the portfolio-posts request, page by page. */
  function PortfolioResponses(getPage: Request -> PageResponse, apiKey: Option<string>): int -> PageResponse
  {
    page => getPage(PortfolioNewsRequest(apiKey, page))
  }

  /** The filtered page source at `page` is the items of the service's answer to that page's request. */
  lemma FilteredPageAt(getPage: Request -> PageResponse, apiKey: Option<string>, kind: string,
                       currencies: Option<string>, filter: Option<string>, regions: Option<string>,
                       public: bool, page: int)
    ensures ItemsOf(FilteredResponses(getPage, apiKey, kind, currencies, filter, regions, public))(page) ==
            PageItems(getPage(FilteredNewsRequest(apiKey, kind, page, currencies, filter, regions, public)))
  {
  }

  /** The portfolio page source at `page` is the items of the service's answer to that page's request. */
  lemma PortfolioPageAt(getPage: Request -> PageResponse, apiKey: Option<string>, page: int)
    ensures ItemsOf(PortfolioResponses(getPage, apiKey))(page) == PageItems(getPage(PortfolioNewsRequest(apiKey, page)))
  {
  }

  /**
   * A failed fetch cannot be told apart from an empty page: replacing the
   * failure at one page by an empty (or result-less) body changes neither the
   * pages requested nor the list collected.
   */
  lemma FailureActsAsEmptyPage(failing: int -> PageResponse, emptied: int -> PageResponse, page: int, numPages: int)
    requires forall p :: p != page ==> failing(p) == emptied(p)
    requires failing(page).PageFailed?
    requires emptied(page) == PageBody(Some([])) || emptied(page) == PageBody(None)
    ensures Requested(ItemsOf(failing), numPages) == Requested(ItemsOf(emptied), numPages)
    ensures Paginate(ItemsOf(failing), numPages) == Paginate(ItemsOf(emptied), numPages)
  {
    forall p ensures ItemsOf(failing)(p) == ItemsOf(emptied)(p) {
    }
    SamePagesSameResult(ItemsOf(failing), ItemsOf(emptied), 1, numPages);
  }

  /**
   * A failure at page k+1, after k non-empty pages and with k < numPages, ends
   * the loop there: pages 1..k+1 are requested and pages 1..k are kept.
   */
  lemma FailureKeepsEarlierPages(responses: int -> PageResponse, numPages: int, k: nat)
    requires k < numPages
    requires forall p :: 1 <= p <= k ==> PageItems(responses(p)) != []
    requires responses(k + 1).PageFailed?
    ensures Requested(ItemsOf(responses), numPages) == Range(1, k + 2)
    ensures Paginate(ItemsOf(responses), numPages) == Concat(ItemsOf(responses), Range(1, k + 1))
  {
    EarlyStop(ItemsOf(responses), numPages, k);
  }

  /** Alert directions the tool accepts. */
  predicate ValidDirection(direction: string)
  {
    direction == "up" || direction == "down"
  }

  /**
   * The POST that adds a price alert, or the validation error when the
   * direction is neither "up" nor "down".
   */
  function AlertAddRequest(apiKey: Option<string>, currency: string, price: real, direction: string): (r: Result<Request, string>)
    ensures r.Failure? <==> !ValidDirection(direction)
    ensures r.Failure? ==> r.error == DirectionError
    ensures r.Success? ==> r.value.verb == Post && r.value.url == AlertsAddUrl &&
                           r.value.params == map["auth_token" := AuthToken(apiKey)] &&
                           r.value.body.Keys == {"currency", "price", "direction"} &&
                           r.value.body["direction"] == Str(direction) &&
                           r.value.body["currency"] == Str(currency) && r.value.body["price"] == Num(price)
  {
    if !ValidDirection(direction) then Failure(DirectionError)
    else Success(Request(Post, AlertsAddUrl, map["auth_token" := AuthToken(apiKey)],
                         map["currency" := Str(currency), "price" := Num(price), "direction" := Str(direction)]))
  }

  /** What a single-object tool returns: the parsed object, or an empty object on any failure. */
  function ObjectReply(response: ObjectResponse): (reply: map<string, Value>)
    ensures response.ObjectFailed? ==> reply == map[]
  {
    match response
    case ObjectFailed(_) => map[]
    case ObjectBody(fields) => fields
  }
}
