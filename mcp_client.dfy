/** The MCP client: `execute_tool` records each call in the `tool_calls` table, dispatches it to
    the search, fetch or memory handler and records how it ended. The database is a map of
    rows plus the list of writes made to it; HTTP and `urlparse` are parameters. */
module McpClient {
  import opened Text
  import opened Web
  import McpConfig
  import Database
  import Settings

  /** The tool parameters the handlers read (`None` when the key is absent). */
  datatype McpParams = McpParams(query: Option<string>, url: Option<string>, action: Option<string>,
                                 key: Option<string>, value: Option<string>)

  // ---------------------------------------------------------------------
  // Memory handler

  datatype MemoryReply = Stored(key: string, value: string) | Retrieved(key: string, value: string) | UnknownAction(action: string)

  /** `_execute_memory_tool`: the action defaults to "get"; "set" echoes key and value, "get"
      answers with a fixed text built from the key, anything else is an unknown action. */
  function MemoryTool(params: McpParams): (r: MemoryReply)
    ensures r.Stored? <==> params.action == Some("set")
    ensures r.Retrieved? <==> params.action.None? || params.action == Some("get")
    ensures r.Stored? ==> r.key == GetOr(params.key, "") && r.value == GetOr(params.value, "")
    ensures r.Retrieved? ==> r.key == GetOr(params.key, "") && r.value == "记忆中的值: " + r.key
    ensures r.UnknownAction? ==> r.action == params.action.value
  {
    var action := GetOr(params.action, "get");
    var key := GetOr(params.key, "");
    var value := GetOr(params.value, "");
    if action == "set" then Stored(key, value)
    else if action == "get" then Retrieved(key, "记忆中的值: " + key)
    else UnknownAction(action)
  }

  // ---------------------------------------------------------------------
  // Search handler

  /** `_extract_domain`: the network location, or the url itself when `urlparse` raises. */
  function ExtractDomain(parseUrl: UrlParser, url: string): (d: string)
    ensures parseUrl(url).Some? ==> d == parseUrl(url).value.netloc
    ensures parseUrl(url).None? ==> d == url
  {
    match parseUrl(url)
    case None => url
    case Some(parts) => parts.netloc
  }

  /** The first metatag's `article:published_time`, "" when there is none (an empty list included). */
  function PublishedDate(item: CseItem): string
  {
    if item.pagemap.Some? && item.pagemap.value.metatags.Some? && item.pagemap.value.metatags.value != [] then
      var tag := item.pagemap.value.metatags.value[0];
      if "article:published_time" in tag then tag["article:published_time"] else ""
    else ""
  }

  /** The result built for one item; the source is the link's domain. */
  function FormatItem(parseUrl: UrlParser, item: CseItem): SearchResult
  {
    SearchResult(GetOr(item.title, ""), GetOr(item.link, ""), GetOr(item.snippet, ""),
                 ExtractDomain(parseUrl, GetOr(item.link, "")), PublishedDate(item))
  }

  /** The dict `_format_google_search_results` returns; the float `search_time` is not modelled. */
  datatype SearchOutput = SearchOutput(query: string, results: seq<SearchResult>, totalResults: string, apiSource: string)

  /** `searchInformation.totalResults`, "0" when either is absent. */
  function TotalResults(data: CseData): string
  {
    if data.searchInformation.Some? then GetOr(data.searchInformation.value.totalResults, "0") else "0"
  }

  /** What `_format_google_search_results` computes. */
  function SearchOutputOf(parseUrl: UrlParser, data: CseData, query: string): SearchOutput
  {
    var items := ItemsOf(data);
    SearchOutput(query, seq(|items|, i requires 0 <= i < |items| => FormatItem(parseUrl, items[i])),
                 TotalResults(data), "google_custom_search")
  }

  /** `_format_google_search_results(data, query)`: one result per item, in order. */
  method FormatGoogleSearchResults(parseUrl: UrlParser, data: CseData, query: string) returns (r: SearchOutput)
    ensures r == SearchOutputOf(parseUrl, data, query)
    ensures |r.results| == |ItemsOf(data)|
    ensures forall i :: 0 <= i < |r.results| ==> r.results[i].url == GetOr(ItemsOf(data)[i].link, "")
  {
    var items := ItemsOf(data);
    var results: seq<SearchResult> := [];
    var i := 0;
    while i < |items|
      invariant 0 <= i <= |items|
      invariant |results| == i
      invariant forall k :: 0 <= k < i ==> results[k] == FormatItem(parseUrl, items[k])
    {
      results := results + [FormatItem(parseUrl, items[i])];
      i := i + 1;
    }
    r := SearchOutput(query, results, TotalResults(data), "google_custom_search");
  }

  /** The search request: only the credentials and the query vary (num 10, safe "medium",
      sort "date" and the field list are fixed). */
  datatype SearchRequest = SearchRequest(key: string, cx: string, q: string)

  /** How the HTTP call ended: a timeout, another transport error, or a response with its
      status, its decoded body (or the decoder's message) and the JSON `error.message` if any. */
  datatype SearchHttp =
    | TimedOut
    | RequestFailed(message: string)
    | Response(statusCode: int, body: Result<CseData, string>, errorMessage: Option<string>)

  /** `_execute_search_tool`: the missing-credentials guard, then the HTTP outcome. The
      "Search API error" raised for a non-200 status is caught by the generic handler, so it
      reaches the caller wrapped in "Search execution failed: ". */
  function ExecuteSearchTool(parseUrl: UrlParser, params: McpParams, config: McpConfig.ToolConfig,
                             http: SearchRequest -> SearchHttp): (r: Result<SearchOutput, string>)
    ensures (config.apiKey == [] || config.engineId == []) ==> r == Err("Google Custom Search API not configured")
    ensures r.Ok? ==> r.value.query == GetOr(params.query, "") && r.value.apiSource == "google_custom_search"
  {
    var query := GetOr(params.query, "");
    if config.apiKey == [] || config.engineId == [] then Err("Google Custom Search API not configured")
    else
      match http(SearchRequest(config.apiKey, config.engineId, query))
      case TimedOut => Err("Search request timed out")
      case RequestFailed(m) => Err("Search request failed: " + m)
      case Response(code, body, errorMessage) =>
        if code != 200 then
          Err("Search execution failed: Search API error: " + GetOr(errorMessage, "HTTP " + IntToString(code)))
        else if body.Err? then Err("Search execution failed: " + body.error)
        else Ok(SearchOutputOf(parseUrl, body.value, query))
  }

  // ---------------------------------------------------------------------
  // Dispatch and the tool_calls record

  /** What a handler returned. */
  datatype ToolOutput =
    | SearchOut(search: SearchOutput)
    | FetchOut(url: string, content: string, statusCode: int, contentType: string)
    | MemoryOut(memory: MemoryReply)

  /** `_execute_fetch_tool`: a simulated page for the url. */
  function FetchTool(params: McpParams): (r: ToolOutput)
    ensures r.FetchOut? && r.url == GetOr(params.url, "") && r.statusCode == 200 && r.contentType == "text/html"
  {
    var url := GetOr(params.url, "");
    FetchOut(url, "这是从 " + url + " 获取的内容...", 200, "text/html")
  }

  /** The `if`/`elif` chain on the tool name; an unknown name raises. */
  function Dispatch(parseUrl: UrlParser, name: string, params: McpParams, config: McpConfig.ToolConfig,
                    http: SearchRequest -> SearchHttp): (r: Result<ToolOutput, string>)
    ensures name == "memory" ==> r == Ok(MemoryOut(MemoryTool(params)))
    ensures name == "fetch" ==> r == Ok(FetchTool(params))
    ensures name == "search" ==> (r.Ok? <==> ExecuteSearchTool(parseUrl, params, config, http).Ok?)
    ensures name == "search" ==>
              r == match ExecuteSearchTool(parseUrl, params, config, http)
                   case Ok(o) => Ok(SearchOut(o))
                   case Err(e) => Err(e)
    ensures name !in McpConfig.ToolOrder ==> r == Err("Unknown tool type: " + name)
  {
    if name == "search" then
      match ExecuteSearchTool(parseUrl, params, config, http)
      case Ok(out) => Ok(SearchOut(out))
      case Err(e) => Err(e)
    else if name == "fetch" then Ok(FetchTool(params))
    else if name == "memory" then Ok(MemoryOut(MemoryTool(params)))
    else Err("Unknown tool type: " + name)
  }

  /** The `result` column: "" until the call ends, then the output or `{"error": message}`. */
  datatype StoredResult = Pending | Output(output: ToolOutput) | Failed(error: string)

  datatype ToolCallRow = ToolCallRow(sessionId: string, messageId: string, toolName: string,
                                     parameters: McpParams, result: StoredResult, status: string)

  /** One statement against the `tool_calls` table. */
  datatype Write = Insert(id: string, status: string) | Update(id: string, status: string)

  datatype ToolSuccess = ToolSuccess(toolName: string, result: ToolOutput)

  /** What `execute_tool` raises: its own `MCPToolError`, or a database error that escapes it. */
  datatype ToolError = McpToolError(message: string) | DatabaseError(message: string)

  const NoSuchTable: string := "no such table: tool_calls"

  /** One entry of `list_available_tools()`. */
  datatype ToolInfo = ToolInfo(name: string, description: string, enabled: bool, serverUrl: string)

  /** `list_available_tools()`: the client's tools in table order. */
  function ListAvailableTools(tools: McpConfig.ToolTable): (r: seq<ToolInfo>)
  {
    ToolInfosOf(tools, McpConfig.ToolOrder)
  }

  function ToolInfosOf(tools: McpConfig.ToolTable, names: seq<string>): (r: seq<ToolInfo>)
  {
    if names == [] then []
    else
      var rest := ToolInfosOf(tools, names[1..]);
      if names[0] in tools then
        var t := tools[names[0]];
        [ToolInfo(t.name, t.description, t.enabled, t.serverUrl)] + rest
      else rest
  }

  /** Every tool a client lists is enabled, and a tool is listed exactly when it is enabled. */
  lemma {:induction false} ToolInfosOfEnabled(tools: McpConfig.ToolTable, names: seq<string>)
    requires forall n :: n in tools ==> tools[n].enabled && tools[n].name == n
    ensures forall t :: t in ToolInfosOf(tools, names) ==> t.enabled
    ensures forall n :: (exists t :: t in ToolInfosOf(tools, names) && t.name == n) <==> n in names && n in tools
  {
    if names != [] {
      ToolInfosOfEnabled(tools, names[1..]);
      var all := ToolInfosOf(tools, names);
      var rest := ToolInfosOf(tools, names[1..]);
      forall n ensures (exists t :: t in all && t.name == n) <==> n in names && n in tools {
        if n in names && n in tools {
          if n == names[0] {
            var t := tools[n];
            assert ToolInfo(t.name, t.description, t.enabled, t.serverUrl) in all;
          } else {
            assert n in names[1..];
            var t :| t in rest && t.name == n;
            assert t in all;
          }
        }
        if exists t :: t in all && t.name == n {
          var t :| t in all && t.name == n;
          if t in rest {
            assert n in names[1..] && n in tools;
            var k :| 0 <= k < |names[1..]| && names[1..][k] == n;
            assert names[k + 1] == n;
          } else {
            assert names[0] in tools && t.name == tools[names[0]].name;
          }
        }
      }
    }
  }

  lemma ListAvailableToolsEnabled(env: Settings.Env)
    ensures forall t :: t in ListAvailableTools(McpConfig.GetEnabledTools(McpConfig.McpTools(env))) ==> t.enabled
    ensures forall n :: (exists t :: t in ListAvailableTools(McpConfig.GetEnabledTools(McpConfig.McpTools(env))) && t.name == n)
                        <==> McpConfig.IsToolEnabled(McpConfig.McpTools(env), n)
  {
    var table := McpConfig.McpTools(env);
    McpConfig.McpToolsShape(env);
    var tools := McpConfig.GetEnabledTools(table);
    ToolInfosOfEnabled(tools, McpConfig.ToolOrder);
    forall n ensures n in tools ==> n in McpConfig.ToolOrder {
      if n in tools {
        assert n in table.Keys;
      }
    }
  }

  /** `MCPClient`: the tool table it was built from, the tools it lists, the tables that exist
      in its database, the `tool_calls` rows and the writes made to them. */
  class Client {
    const table: McpConfig.ToolTable
    const tools: McpConfig.ToolTable
    const tables: set<string>
    var rows: map<string, ToolCallRow>
    var writes: seq<Write>

    /** `MCPClient()` over the environment's tool table and a database holding `tables`. */
    constructor (env: Settings.Env, tables: set<string>)
      ensures table == McpConfig.McpTools(env) && tools == McpConfig.GetEnabledTools(table)
      ensures this.tables == tables && rows == map[] && writes == []
    {
      table := McpConfig.McpTools(env);
      tools := McpConfig.GetEnabledTools(McpConfig.McpTools(env));
      this.tables := tables;
      rows := map[];
      writes := [];
    }

    /** `_record_tool_call`: inserts a row with an empty result; fails when the table is missing. */
    method RecordToolCall(id: string, sessionId: string, messageId: string, name: string,
                          params: McpParams, status: string) returns (ok: bool)
      requires id !in rows
      modifies this
      ensures ok <==> "tool_calls" in tables
      ensures ok ==> rows == old(rows)[id := ToolCallRow(sessionId, messageId, name, params, Pending, status)]
      ensures ok ==> writes == old(writes) + [Insert(id, status)]
      ensures !ok ==> rows == old(rows) && writes == old(writes)
    {
      if "tool_calls" !in tables {
        return false;
      }
      rows := rows[id := ToolCallRow(sessionId, messageId, name, params, Pending, status)];
      writes := writes + [Insert(id, status)];
      ok := true;
    }

    /** `_update_tool_call`: sets result and status of the row with that id (none if absent). */
    method UpdateToolCall(id: string, result: StoredResult, status: string) returns (ok: bool)
      modifies this
      ensures ok <==> "tool_calls" in tables
      ensures ok && id in old(rows) ==> rows == old(rows)[id := old(rows)[id].(result := result, status := status)]
      ensures !(ok && id in old(rows)) ==> rows == old(rows)
      ensures ok ==> writes == old(writes) + [Update(id, status)]
      ensures !ok ==> writes == old(writes)
    {
      if "tool_calls" !in tables {
        return false;
      }
      if id in rows {
        rows := rows[id := rows[id].(result := result, status := status)];
      }
      writes := writes + [Update(id, status)];
      ok := true;
    }

    /** `execute_tool(name, parameters, session_id, message_id)`; `callId` is the fresh uuid.
        A tool that is not enabled is refused before anything is written. Otherwise the call
        is inserted as "running" and then updated exactly once, to "success" with the output
        or to "error" with the message; without a `tool_calls` table both writes fail and the
        database error escapes. */
    method ExecuteTool(parseUrl: UrlParser, name: string, params: McpParams, sessionId: string,
                       messageId: string, callId: string, http: SearchRequest -> SearchHttp)
      returns (r: Result<ToolSuccess, ToolError>)
      requires callId !in rows
      modifies this
      ensures !McpConfig.IsToolEnabled(table, name) ==>
                r == Err(McpToolError("Tool '" + name + "' is not enabled")) && rows == old(rows) && writes == old(writes)
      ensures McpConfig.IsToolEnabled(table, name) && "tool_calls" !in tables ==>
                r == Err(DatabaseError(NoSuchTable)) && rows == old(rows) && writes == old(writes)
      ensures McpConfig.IsToolEnabled(table, name) && "tool_calls" in tables ==>
                var out := Dispatch(parseUrl, name, params, table[name], http);
                var status := if out.Ok? then "success" else "error";
                var stored := if out.Ok? then Output(out.value) else Failed(out.error);
                writes == old(writes) + [Insert(callId, "running"), Update(callId, status)] &&
                rows == old(rows)[callId := ToolCallRow(sessionId, messageId, name, params, stored, status)] &&
                (out.Ok? ==> r == Ok(ToolSuccess(name, out.value))) &&
                (out.Err? ==> r == Err(McpToolError("Tool execution failed: " + out.error)))
    {
      if !McpConfig.IsToolEnabled(table, name) {
        return Err(McpToolError("Tool '" + name + "' is not enabled"));
      }
      var config := McpConfig.GetToolConfig(table, name).value;
      var recorded := RecordToolCall(callId, sessionId, messageId, name, params, "running");
      if !recorded {
        var updated := UpdateToolCall(callId, Failed(NoSuchTable), "error");
        return Err(DatabaseError(NoSuchTable));
      }
      var out := Dispatch(parseUrl, name, params, config, http);
      if out.Ok? {
        var _ := UpdateToolCall(callId, Output(out.value), "success");
        r := Ok(ToolSuccess(name, out.value));
      } else {
        var _ := UpdateToolCall(callId, Failed(out.error), "error");
        r := Err(McpToolError("Tool execution failed: " + out.error));
      }
    }
  }

  /** On the schema `init_db` creates, a call of an enabled tool cannot be recorded and fails. */
  method ShippedSchemaFailsEveryCall(env: Settings.Env, parseUrl: UrlParser, params: McpParams,
                                     http: SearchRequest -> SearchHttp) returns (r: Result<ToolSuccess, ToolError>)
    requires McpConfig.IsToolEnabled(McpConfig.McpTools(env), "memory")
    ensures r == Err(DatabaseError(NoSuchTable))
  {
    var client := new Client(env, Database.InitDbTables);
    r := client.ExecuteTool(parseUrl, "memory", params, "s1", "m1", "c1", http);
  }

  /** With a `tool_calls` table the same call succeeds and leaves one row marked "success". */
  method IntendedSchemaRecordsCall(env: Settings.Env, parseUrl: UrlParser, params: McpParams,
                                   http: SearchRequest -> SearchHttp) returns (r: Result<ToolSuccess, ToolError>, row: ToolCallRow)
    requires McpConfig.IsToolEnabled(McpConfig.McpTools(env), "memory")
    ensures r == Ok(ToolSuccess("memory", MemoryOut(MemoryTool(params))))
    ensures row.status == "success" && row.result == Output(MemoryOut(MemoryTool(params)))
  {
    var client := new Client(env, Database.IntendedTables);
    r := client.ExecuteTool(parseUrl, "memory", params, "s1", "m1", "c1", http);
    row := client.rows["c1"];
  }
}
