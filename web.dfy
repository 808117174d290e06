/** Shapes of the external data the tools read: parsed urls and the Google Custom Search
    JSON response. Absent JSON keys are `None`. */
module Web {
  import opened Text

  /** The two `urlparse` components the backend reads. */
  datatype UrlParts = UrlParts(scheme: string, netloc: string)

  /** `urlparse`: `None` stands for the `ValueError` it raises on a malformed url. */
  type UrlParser = string -> Option<UrlParts>

  /** `item["pagemap"]`: only its `metatags` list is read. */
  datatype Pagemap = Pagemap(metatags: Option<seq<map<string, string>>>)

  /** One element of the response's `items` list. */
  datatype CseItem = CseItem(
    title: Option<string>,
    link: Option<string>,
    snippet: Option<string>,
    displayLink: Option<string>,
    pagemap: Option<Pagemap>)

  /** `searchInformation`: only `totalResults` is modelled. */
  datatype SearchInformation = SearchInformation(totalResults: Option<string>)

  /** The decoded JSON body of a Custom Search response. */
  datatype CseData = CseData(items: Option<seq<CseItem>>, searchInformation: Option<SearchInformation>)

  /** `d.get(key, default)` for an optional string. */
  function GetOr(o: Option<string>, default: string): (r: string)
    ensures o.Some? ==> r == o.value
    ensures o.None? ==> r == default
  {
    if o.Some? then o.value else default
  }

  /** `data.get("items", [])` */
  function ItemsOf(data: CseData): seq<CseItem>
  {
    if data.items.Some? then data.items.value else []
  }

  /** One search hit as both the search tool and the MCP client report it. */
  datatype SearchResult = SearchResult(title: string, url: string, snippet: string, source: string, publishedDate: string)
}
