/** The Google Custom Search tool: the guard chain of `execute`, the request it sends and the
    mapping of response items to results. The HTTP round trip is a parameter. */
module SearchTool {
  import opened Text
  import opened Web

  const DefaultBaseUrl: string := "https://www.googleapis.com/customsearch/v1"
  /** Custom Search returns at most 10 results per request. */
  const MaxNum: int := 10
  const DefaultNumResults: int := 10
  const ApiSource: string := "google_cse"

  /** A configured tool instance. */
  datatype SearchTool = SearchTool(apiKey: string, engineId: string, baseUrl: string)

  /** `SearchTool(config)`: both `api_key` and `engine_id` must be present (a missing one raises
      `KeyError`, whose message is the quoted key); `base_url` has a default. */
  function NewSearchTool(config: map<string, string>): (r: Result<SearchTool, string>)
    ensures r.Ok? <==> "api_key" in config && "engine_id" in config
    ensures r.Ok? ==> r.value.apiKey == config["api_key"] && r.value.engineId == config["engine_id"]
    ensures r.Ok? ==> r.value.baseUrl == (if "base_url" in config then config["base_url"] else DefaultBaseUrl)
    ensures r.Err? ==> r.error == (if "api_key" !in config then "'api_key'" else "'engine_id'")
  {
    if "api_key" !in config then Err("'api_key'")
    else if "engine_id" !in config then Err("'engine_id'")
    else Ok(SearchTool(config["api_key"], config["engine_id"],
                       if "base_url" in config then config["base_url"] else DefaultBaseUrl))
  }

  /** The GET request `_perform_search` sends. */
  datatype CseRequest = CseRequest(url: string, key: string, cx: string, q: string, num: int)

  /** The HTTP round trip: the decoded body, or the message of whatever was raised
      (timeout, transport error, a non-2xx status, a body that is not JSON). */
  type CseGet = CseRequest -> Result<CseData, string>

  /** The request for a query: `num` is the requested count capped at 10. */
  function RequestFor(tool: SearchTool, query: string, numResults: int): (req: CseRequest)
    ensures req.num <= MaxNum
    ensures req.num == numResults || req.num == MaxNum
    ensures numResults <= MaxNum ==> req.num == numResults
    ensures req.q == query && req.key == tool.apiKey && req.cx == tool.engineId && req.url == tool.baseUrl
  {
    CseRequest(tool.baseUrl, tool.apiKey, tool.engineId, query, Min(numResults, MaxNum))
  }

  /** `item.get("pagemap", {}).get("metatags", [{}])[0].get("article:published_time", "Unknown")`:
      an empty `metatags` list raises `IndexError`. */
  function PublishedDate(item: CseItem): (r: Result<string, string>)
    ensures r.Err? <==> item.pagemap.Some? && item.pagemap.value.metatags == Some([])
    ensures r.Err? ==> r.error == "list index out of range"
  {
    if item.pagemap.None? || item.pagemap.value.metatags.None? then Ok("Unknown")
    else
      var tags := item.pagemap.value.metatags.value;
      if tags == [] then Err("list index out of range")
      else if "article:published_time" in tags[0] then Ok(tags[0]["article:published_time"])
      else Ok("Unknown")
  }

  /** The dict built for one item. */
  function ResultOf(item: CseItem): Result<SearchResult, string>
  {
    match PublishedDate(item)
    case Err(e) => Err(e)
    case Ok(date) =>
      Ok(SearchResult(GetOr(item.title, ""), GetOr(item.link, ""), GetOr(item.snippet, ""),
                      GetOr(item.displayLink, ""), date))
  }

  /** The results of a list of items; the first item that raises ends the mapping. */
  function ResultsOf(items: seq<CseItem>): Result<seq<SearchResult>, string>
  {
    if items == [] then Ok([])
    else
      match ResultsOf(items[..|items| - 1])
      case Err(e) => Err(e)
      case Ok(rs) =>
        match ResultOf(items[|items| - 1])
        case Err(e) => Err(e)
        case Ok(x) => Ok(rs + [x])
  }

  /** One result per item, in order, each with its fields defaulting to "" — unless some item
      has an empty `metatags` list, in which case the whole mapping fails. */
  lemma {:induction false} ResultsOfItems(items: seq<CseItem>)
    ensures ResultsOf(items).Err? <==> exists i :: 0 <= i < |items| && PublishedDate(items[i]).Err?
    ensures ResultsOf(items).Ok? ==> |ResultsOf(items).value| == |items|
    ensures ResultsOf(items).Ok? ==> forall i :: 0 <= i < |items| ==>
              ResultOf(items[i]).Ok? && ResultsOf(items).value[i] == ResultOf(items[i]).value
  {
    if items != [] {
      var init := items[..|items| - 1];
      ResultsOfItems(init);
      assert forall i :: 0 <= i < |init| ==> init[i] == items[i];
      if ResultsOf(items).Ok? {
        var rs := ResultsOf(init).value;
        assert ResultsOf(items).value == rs + [ResultOf(items[|items| - 1]).value];
      }
    }
  }

  /** `_perform_search(query, num_results)`: sends the request, then maps the items in a loop. */
  method PerformSearch(tool: SearchTool, query: string, numResults: int, get: CseGet)
    returns (r: Result<seq<SearchResult>, string>)
    ensures get(RequestFor(tool, query, numResults)).Err? ==>
              r == Err(get(RequestFor(tool, query, numResults)).error)
    ensures get(RequestFor(tool, query, numResults)).Ok? ==>
              r == ResultsOf(ItemsOf(get(RequestFor(tool, query, numResults)).value))
  {
    var response := get(RequestFor(tool, query, numResults));
    if response.Err? {
      return Err(response.error);
    }
    var items := ItemsOf(response.value);
    var results: seq<SearchResult> := [];
    var i := 0;
    while i < |items|
      invariant 0 <= i <= |items|
      invariant ResultsOf(items[..i]) == Ok(results)
    {
      assert items[..i + 1][..i] == items[..i];
      var x := ResultOf(items[i]);
      if x.Err? {
        assert ResultsOf(items[..i + 1]) == Err(x.error);
        ResultsErrExtends(items, i + 1);
        return Err(x.error);
      }
      results := results + [x.value];
      i := i + 1;
    }
    assert items[..i] == items;
    r := Ok(results);
  }

  /** Once a prefix of the items fails, every longer prefix fails with the same message. */
  lemma {:induction false} ResultsErrExtends(items: seq<CseItem>, n: nat)
    requires n <= |items| && ResultsOf(items[..n]).Err?
    ensures ResultsOf(items) == ResultsOf(items[..n])
    decreases |items| - n
  {
    if n == |items| {
      assert items[..n] == items;
    } else {
      assert items[..n + 1][..n] == items[..n];
      ResultsErrExtends(items, n + 1);
    }
  }

  /** The dict `execute` returns. `searchTime` is always 0.0. */
  datatype SearchReply = SearchReply(query: string, results: seq<SearchResult>, searchTime: real,
                                     apiSource: string, error: Option<string>)

  /** `execute(parameters)` for the `query` and `num_results` parameters (`None` when absent). */
  method Execute(tool: SearchTool, query: Option<string>, numResults: Option<int>, get: CseGet)
    returns (r: SearchReply)
    ensures r.apiSource == ApiSource && r.searchTime == 0.0
    ensures (query.None? || query.value == []) ==>
              r == SearchReply("", [], 0.0, ApiSource, Some("No search query provided"))
    ensures query.Some? && query.value != [] && (tool.apiKey == [] || tool.engineId == []) ==>
              r == SearchReply(query.value, [], 0.0, ApiSource, Some("Google CSE API key or engine ID not configured"))
    ensures query.Some? && query.value != [] && tool.apiKey != [] && tool.engineId != [] ==>
              var n := if numResults.Some? then numResults.value else DefaultNumResults;
              var response := get(RequestFor(tool, query.value, n));
              var outcome := if response.Err? then Err(response.error) else ResultsOf(ItemsOf(response.value));
              (outcome.Ok? ==> r == SearchReply(query.value, outcome.value, 0.0, ApiSource, None)) &&
              (outcome.Err? ==> r == SearchReply(query.value, [], 0.0, ApiSource, Some("Search tool error: " + outcome.error)))
  {
    if query.None? || query.value == [] {
      return SearchReply("", [], 0.0, ApiSource, Some("No search query provided"));
    }
    var q := query.value;
    var n := if numResults.Some? then numResults.value else DefaultNumResults;
    if tool.apiKey == [] || tool.engineId == [] {
      return SearchReply(q, [], 0.0, ApiSource, Some("Google CSE API key or engine ID not configured"));
    }
    var outcome := PerformSearch(tool, q, n, get);
    if outcome.Err? {
      return SearchReply(q, [], 0.0, ApiSource, Some("Search tool error: " + outcome.error));
    }
    r := SearchReply(q, outcome.value, 0.0, ApiSource, None);
  }
}
