# CryptoPanic news tools: a Dafny model of the paginated news core

The CryptoPanic MCP server exposes tools that forward calls to the CryptoPanic
REST service. Most tools make one HTTP call and hand back the parsed JSON. Four
pieces of `main.py` have their own logic, and this project models and proves them:

- **The page loop** of `get_filtered_news` and `get_portfolio_news`. It requests
  pages 1, 2, … up to `num_pages`. It stops at the first page that yields no items
  and appends each page's items to `all_news`.
- **The page fetchers** `fetch_filtered_news_page` and `fetch_portfolio_news_page`.
  They build the query parameters and issue one GET. Every failure becomes the
  empty list.
- **The formatter** `concatenate_news`. It renders one `- <title>` line per item
  and strips the text, or returns `"No news items found."` for an empty list.
- **The direction check** of `add_portfolio_alert`. It rejects any direction
  other than `up` and `down` before sending anything.

The network is a function parameter. `getPage: Request -> PageResponse` answers
GET requests to list endpoints, and `post: Request -> ObjectResponse` answers
POSTs. A response is either a parsed body or a `Failure` (transport, HTTP status
or malformed body). The page loop is specified once, generically, in module
`Pagination`:

- `Requested(fetch, n)` gives the page numbers requested.
- `Paginate(fetch, n)` gives the accumulated list.

Here `fetch(p)` is what page `p` yields after failures have become empty lists.
The imperative methods in `Tools` are proved equal to these functions. They keep
a ghost log of the page numbers they fetch, or of the requests they send.

Modules:
- `Wrappers`: the `Option` and `Result` types.
- `Text`: Python's `str.strip()`, using the `str.isspace()` character set; also
  `"\n".join` and `str.split("\n")`.
- `Pagination`: the loop specification and its lemmas.
- `Api`: the request and response data, the query builders, the items a fetch
  yields, and failure-as-empty.
- `Formatter`: the `concatenate_news` specification and its lemmas.
- `Tools`: the step-by-step operations.
- `Scenarios`: two concrete runs.

Since a tool's result is a function of the service's answers and the arguments,
repeating a call against unchanged data gives the same text.

## Model

| member | source | states |
|---|---|---|
| `Tools.GetFilteredNews` | main.py:53-59 | Requests exactly the pages `Requested(fetch, num_pages)` of the filtered-posts fetcher, in order. Returns `FormatNews` of their concatenated items. For `num_pages <= 0` it makes no request and returns `"No news items found."` |
| `Tools.GetPortfolioNews` | main.py:175-181 | The same loop over the portfolio endpoint: the pages requested, the formatted concatenation, and no request plus the sentinel for `num_pages <= 0` |
| `Tools.FetchFilteredNewsPage` | main.py:62-86 | Returns exactly what the loop's page source yields for that page. That is `PageItems` of the service's answer to the posts GET with `FilteredNewsParams`, so `[]` on any failure |
| `Tools.FetchPortfolioNewsPage` | main.py:184-197 | Returns exactly what the portfolio page source yields for that page. That is `PageItems` of the service's answer to the portfolio GET, so `[]` on any failure |
| `Tools.BuildFilteredParams` | main.py:66-77 | The dict built by conditional inserts equals `FilteredNewsParams` |
| `Tools.ConcatenateNews` | main.py:302-311 | The loop-built text, stripped, equals `FormatNews(items)`. It is the sentinel exactly when the list is empty |
| `Tools.AddPortfolioAlert` | main.py:251-279 | A direction other than "up"/"down" sends nothing and returns `{"error": "Direction must be 'up' or 'down'"}`. Otherwise it sends exactly one alert POST and returns its parsed reply, or `{}` on failure |
| `Api.FilteredNewsParams` | main.py:66-77 | `auth_token`, `kind`, `page` and `public` are always present, and `public` is "true" iff the flag is set. Each of `currencies`, `filter`, `regions` is present iff its argument is neither None nor empty, and then it is carried unchanged. There are no other keys |
| `Api.AuthToken` | main.py:8 | The `auth_token` value of every query (main.py:67, 188, 260): the API key from the environment, or `Null` when the variable is unset |
| `Api.Truthy` | main.py:72-77 | Python truthiness of an optional string filter, as in `if currencies:`. It holds when the value is neither None nor "" |
| `Api.FilteredNewsRequest` | main.py:65-78 | The GET of one filtered page: the posts URL, the params of `FilteredNewsParams` and no body |
| `Api.WithOptional` | main.py:72-77 | One conditional insert: the key is added, with the argument's value, only when the argument is truthy. Other keys are untouched |
| `Api.PortfolioNewsRequest` | main.py:187-188 | The portfolio GET carries exactly `auth_token` and `page` |
| `Api.PageItems` | main.py:80-86 | A failed exchange, or a body without `results`, yields the empty list |
| `Api.FailureActsAsEmptyPage` | main.py:81-86 | Replacing a failed fetch at one page by an empty page changes neither the pages requested nor the list collected |
| `Api.FailureKeepsEarlierPages` | main.py:56-58 | Suppose pages 1..k are non-empty, the fetch of page k+1 fails and k < num_pages. Then pages 1..k+1 are requested and pages 1..k are kept, in order |
| `Api.AlertAddRequest` | main.py:259-267 | Fails with the direction message iff the direction is not "up"/"down". Otherwise it builds the POST to the alerts URL with body `currency`, `price`, `direction` |
| `Api.ValidDirection` | main.py:261 | The directions the alert tool accepts: exactly "up" and "down" |
| `Api.ObjectReply` | main.py:268-273 | A failed exchange gives the empty object |
| `Pagination.PagesFrom` | main.py:54-57 | The page numbers the loop requests from a given page on: the page itself, then stop if it was empty, else continue until the budget is spent. `PagesFromShape` states its shape |
| `Pagination.CollectFrom` | main.py:54-58 | The items the loop keeps from a given page on: each non-empty page's items, in order, up to the first empty page or the budget |
| `Pagination.Requested` | main.py:53-57 | The pages requested by a call: `PagesFrom` started at page 1. `RequestedPagesAreConsecutive` and `EarlyStop` characterise it |
| `Pagination.Paginate` | main.py:53-58 | The list `all_news` holds at the end: `CollectFrom` started at page 1. `PaginateIsConcatOfRequested` characterises it |
| `Pagination.PagesFromShape` | main.py:54-57 | From a start page, the requests are consecutive and within the budget. Every one but the last was non-empty. The last was empty unless the budget ran out |
| `Pagination.RequestedPagesAreConsecutive` | main.py:54-57 | The requests are exactly 1..m with m <= max(num_pages, 0). Fewer than num_pages requests means the last page came back empty |
| `Pagination.NoRequestsWithoutPages` | main.py:54 | For num_pages <= 0 there are no requests and the list is empty |
| `Pagination.EarlyStop` | main.py:54-58 | Suppose pages 1..k are non-empty, page k+1 is empty and k < num_pages. Then exactly k+1 pages (1..k+1) are requested and the result is pages 1..k concatenated |
| `Pagination.AllPagesFull` | main.py:54-58 | With no empty page among 1..num_pages, all of them are requested and concatenated in order |
| `Pagination.PaginateIsConcatOfRequested` | main.py:58 | The list is the in-order concatenation of the requested pages. Its length is the sum of their lengths |
| `Pagination.CollectIsConcatOfRequested` | main.py:53-58 | From any start page, what is collected is the concatenation of the pages requested from there |
| `Pagination.ConcatLength` | main.py:58 | Concatenating pages keeps every item |
| `Pagination.SamePagesSameResult` | main.py:55-57 | The loop depends only on what each page yields |
| `Formatter.SentinelIffEmpty` | main.py:305-311 | The result is `"No news items found."` exactly when the list is empty |
| `Formatter.FormatNewsIsTrimmedJoin` | main.py:307-311 | For a non-empty list the result is the `- <title>` lines joined by "\n", with only trailing whitespace removed. It starts with '-' |
| `Formatter.FormatNewsIsJoin` | main.py:307-311 | When the last title is non-empty and ends in a non-space character, the result is exactly the lines joined by "\n", with no trailing newline |
| `Formatter.FormatNewsLines` | main.py:307-311 | With no newline in any title, M items split into exactly M lines. Every line but the last is the item's `- <title>` bullet, and the last is its bullet without trailing whitespace. A line whose title is not blank starts with "- ". A blank last title leaves just "-". An item without a title gives "- No Title" |
| `Formatter.FormatNewsTrimsLastLine` | main.py:307-311 | For a non-empty list, `strip()` only touches the last line: the result is the bullets joined by "\n", the last one without trailing whitespace (`OutputLines`) |
| `Formatter.FormatNewsSplits` | main.py:307-311 | With no newline in any title, `split("\n")` of the result gives back exactly its lines (`OutputLines`) |
| `Formatter.OutputLineShapes` | main.py:308-311 | A line of the output starts with "- " when its title is not blank. A blank last title gives "-". A missing title gives "- No Title" |
| `Formatter.BlankTitleAlone` | main.py:308-311 | A single item whose title is empty or all whitespace formats as "-". `strip()` takes the space after the dash along with the title, and the source does the same |
| `Formatter.RenderedIsJoinedBullets` | main.py:307-309 | The text the loop accumulates is the joined lines plus one final newline |
| `Formatter.FormatNews` | main.py:302-311 | The value `concatenate_news` returns: the sentinel for an empty list, otherwise `Strip` of `Rendered`. Its properties are stated by `SentinelIffEmpty`, `FormatNewsIsTrimmedJoin`, `FormatNewsIsJoin` and `FormatNewsLines` |
| `Formatter.DisplayedTitle` | main.py:308-309 | The title the f-string shows: the record's `title` string, "No Title" when the key is absent, and "None" when it is JSON null |
| `Formatter.Rendered` | main.py:306-309 | The text the loop accumulates before `strip()`: one `- <title>` line and a newline per item, in order. `RenderedIsJoinedBullets` states its shape |
| `Formatter.Bullet` | main.py:308-309 | The line an item becomes: the f-string `- {title}` applied to `DisplayedTitle`. `BulletShapes` states its shape |
| `Formatter.BulletShapes` | main.py:308-309 | Every line starts with "- ". A missing title shows the "No Title" label |
| `Text.Strip` | main.py:311 | The result is a slice of the input with only whitespace outside it, and it neither starts nor ends with whitespace |
| `Text.IsSpace` | main.py:311 | The characters `str.strip()` removes, which are those for which `str.isspace()` holds: tab through carriage return, U+001C to space, U+0085, U+00A0, U+1680, U+2000 to U+200A, U+2028, U+2029, U+202F, U+205F and U+3000 |
| `Text.TrimRightJoinLines` | main.py:309-311 | Trimming newline-joined lines whose last line is not blank trims only that last line |
| `Text.TrimRight` | main.py:311 | The result is a prefix of the input. Only whitespace was removed, and the result does not end in whitespace |
| `Text.TrimLeft` | main.py:311 | The result is a suffix of the input. Only whitespace was removed, and the result does not start with whitespace |
| `Text.SplitJoinLines` | main.py:309-311 | Splitting newline-joined lines that hold no newline gives the lines back |
| `Scenarios.TwoPagesSecondEmpty` | main.py:53-59 | Page 1 is ["A", "B"] and page 2 is empty. With num_pages = 2, pages 1 and 2 are requested and the text is "- A\n- B" |
| `Scenarios.ThreeFullPages` | main.py:53-59 | Three pages hold "X", "Y" and "Z". With num_pages = 3, pages 1, 2 and 3 are requested and the text is "- X\n- Y\n- Z" |

## Left out

- The HTTP transport (`requests.get`, `requests.post`, `raise_for_status`, `response.json()`): not modelled. Its outcome is a parameter: a parsed body or a `Failure`.
- How `requests` encodes the query (dropping None values, stringifying numbers): not modelled. The model keeps the dict as built, with `Null` for an unset key and `Int` for the page.
- Single-call tools (`get_post_details`, `vote_post`, `add_to_portfolio`, `remove_from_portfolio`, `get_portfolio_summary`, `get_portfolio_history`, `list_portfolio_alerts`, `remove_portfolio_alert`): not modelled. Each forwards its arguments to one request and returns the parsed JSON or `{}`, with no logic of its own.
- `get_crypto_news` (main.py:12-28): not modelled. It calls `fetch_crypto_news`, which `main.py` does not define, so its behaviour cannot be stated.
- Server setup and credentials: FastMCP registration, `mcp.run` and the dotenv/`os.getenv` loading are not modelled. The API key is an explicit `Option<string>` argument.
- The `print` diagnostics in the exception handlers: not modelled. They are operator logging and not part of any returned value.
- `price` in `add_portfolio_alert` is a Python float. The model uses `real`, and the value is only passed through.
- Tools.AddPortfolioAlert: a reply whose top level is not a JSON object (an array, a string, a number, `true` or `null`) is not modelled. `ObjectResponse` only holds an object, although main.py:270 passes any parsed reply through. Inside an object, every JSON value can be expressed by `Value`.
- Tools.AddPortfolioAlert: a malformed reply maps to `{}`. With older `requests` versions, `response.json()` raises a plain `ValueError`, and the tool would then return `{"error": <decoder message>}` instead. That message comes from the JSON library.
- Elements of `results` that are not JSON objects (a string or a number, say): not modelled, because `NewsItem` is always a record. In the source, `news.get(...)` at main.py:308 then raises `AttributeError` outside any `try`. The exception escapes `get_filtered_news` (main.py:59) and `get_portfolio_news` (main.py:181), and the tool returns no text at all. A `results` value that is a non-zero number or `true` is another such path: `not news_items` is false at main.py:56 and 178, and `all_news.extend(news_items)` raises `TypeError` at main.py:58 and 180, which neither tool catches.
- News records other than their `title`: not modelled, because no tool reads them. A title that is neither absent, null nor a string, and a `results` value that is not a list, are not modelled either. An absent or null `results` is modelled; both give an empty page.
- Default argument values (`kind="news"`, `num_pages=1`, `public=True`): not modelled, because callers of the model pass every argument.
