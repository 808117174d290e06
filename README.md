# AI assistant backend — a Dafny model

This project models the core of a chat backend.

The chat API works in two steps:
- `POST /chat/create` stores the user's message and an empty assistant row in SQLite, then hands back a one-shot stream id.
- `GET /chat/stream/{id}` redeems that id once. It streams the answer as server-sent `delta` events, either from an OpenAI/OpenRouter model or from a local "Echo:" fallback. In its `finally` clause it appends what it streamed to the assistant row and sends `done`.

Around the chat API the model covers:
- the settings read from the environment and the SQLite url handling;
- the health and config endpoints, which mask the API keys;
- the MCP tool table and the MCP client, which writes every tool call to a `tool_calls` table (a table the database initialisation does not create; see Findings);
- the YAML-driven tool registry with its instance cache;
- three tools: Google Custom Search, web page fetch and uploaded-file read;
- the repository's line counter, `count_loc.py`.

There is one module per source file. Two shared modules sit beside them:
- `Text`: `Option`/`Result` and the Python string operations the code uses (`split()`, `strip()`, `lower()`, `split(",")`, `find`, `startswith`).
- `Web`: the shapes of the external data the tools read.

Code that updates state in place is modelled as classes:
- `Chat.ChatService`: the two ticket dicts and the two tables;
- `McpClient.Client`: the `tool_calls` rows;
- `ToolRegistry.Registry`: the instance cache;
- `FileTool.Uploads`: the upload mapping and the disk;
- `CountLoc.Tally`.

Most loops of the source are methods with invariants, each proved against a function that specifies it. Three loops are modelled only as the recursive functions that specify them: the echo loop of `_stream_response_text` (`Chat.EchoEvents`), the `os.walk` loop of `iter_files` (`CountLoc.IterFiles`) and the loop of `list_available_tools` (`McpClient.ToolInfosOf`).

Whatever the code calls but does not define becomes a parameter of the model:
- the language model (a function from the client configuration and the chat messages to the deltas it streams), the HTTP requests and the HTML parser;
- `urlparse` and `urljoin`;
- module imports, uuids and the clock.

## Model

| member | source | states |
|---|---|---|
| Settings.StrippedNonEmptyClean | backend/app/core/settings.py:30-34 | every CORS item kept is non-empty and has no surrounding whitespace |
| Settings.StrippedNonEmptyItems | backend/app/core/settings.py:30-34 | an item is kept exactly when it is the non-empty stripped form of some comma-separated part |
| Settings.CorsOriginsClean | backend/app/core/settings.py:30-34 | no configured CORS origin is empty, padded with whitespace or contains a comma |
| Settings.StreamingEnabledCaseInsensitive | backend/app/core/settings.py:43-44 | the streaming flag ignores letter case; it is on exactly for an empty value or "1"/"true"/"yes" |
| Settings.Provider | backend/app/core/settings.py:47 | the provider is never empty and is already lower case |
| Settings.Load | backend/app/core/settings.py:25-64 | the provider is the normalised `LLM_PROVIDER`; the database url is "sqlite:///" before `SQLITE_DB_PATH` |
| Settings.LoadDefaults | backend/app/core/settings.py:25-64 | with an empty environment: streaming on, provider "openai", the OpenRouter default base url, "./data/app.db", the default CORS origins, and empty API and search keys, OpenAI model, OpenRouter site url and site title |
| Database.DatabasePathFromUrl | backend/app/db/database.py:17-23 | the path is a suffix of the url; a "sqlite:///" url is exactly that prefix before the path; any other url is its own path |
| Database.PathFromUrlRoundTrip | backend/app/db/database.py:17-23 | taking apart a url built from a path gives the path back |
| Database.DatabasePathOfSettings | backend/app/db/database.py:17-23 | the database file opened is the `SQLITE_DB_PATH` value, "./data/app.db" when unset |
| Health.Mask | backend/app/api/routes/health.py:40-41 | the mask is empty exactly for an empty key; otherwise it is the key's first (at most) four characters followed by "***" |
| Health.ShortKeyShownWhole | backend/app/api/routes/health.py:40-41 | a key of one to four characters is shown whole in its mask, followed by "***" |
| Health.MaskDependsOnPrefixOnly | backend/app/api/routes/health.py:40-41 | keys sharing their first four characters have the same mask, so nothing past the fourth character leaks |
| Health.Config | backend/app/api/routes/health.py:32-51 | each key is reported as its mask, so at most its first four characters are shown (a key of four characters or fewer is shown whole, then "***"); each presence flag holds exactly when the key is set and exactly when its mask is non-empty; masks are at most 7 characters |
| Health.Healthz | backend/app/api/routes/health.py:17-29 | status "ok", version "0.1.0", the clock's time |
| McpConfig.McpToolsShape | backend/app/core/mcp_config.py:41-65 | the table holds exactly search, fetch and memory, each named after its key; each is enabled iff its variable is unset or reads "true" in any case; only search carries the Google credentials |
| McpConfig.AllEnabledByDefault | backend/app/core/mcp_config.py:41-65 | with none of the three variables set, every tool is enabled |
| McpConfig.GetEnabledTools | backend/app/core/mcp_config.py:68-70 | exactly the enabled entries, unchanged |
| McpConfig.GetToolConfig | backend/app/core/mcp_config.py:73-77 | a known name gives its entry; an unknown one gives the "Tool '…' not found" error |
| McpConfig.EnabledIffListed | backend/app/core/mcp_config.py:80-84 | a tool is enabled iff `get_enabled_tools` lists it, iff its config can be fetched and says enabled |
| ToolRegistry.LoadConfig | backend/app/services/tools/tool_registry.py:26-34 | the `tools` mapping when the file parses and has one; {} when it cannot be read or parsed, or has no `tools` key; names are never repeated |
| ToolRegistry.Lookup | backend/app/services/tools/tool_registry.py:41-43 | nothing is found iff no entry has that name; a found entry is stored under that name |
| ToolRegistry.LookupAt | backend/app/services/tools/tool_registry.py:41-43 | with distinct names, looking up a stored name gives its own entry |
| ToolRegistry.AvailableTools | backend/app/services/tools/tool_registry.py:36-39 | an entry is available exactly when it is in the table and its `enabled` is absent or true |
| ToolRegistry.EnabledDisagreesWithAvailable | backend/app/services/tools/tool_registry.py:45-48 | for `{"foo": {}}` the tool is listed as available yet reported as not enabled |
| ToolRegistry.EnabledIntendedIffAvailable | backend/app/services/tools/tool_registry.py:45-48 | the corrected check holds for a name iff some entry under it is available |
| ToolRegistry.EnabledMatchesIntendedOnNonEmpty | backend/app/services/tools/tool_registry.py:45-48 | the shipped check implies the corrected one, and they agree on every non-empty entry |
| ToolRegistry.ResolveModulePath | backend/app/services/tools/tool_registry.py:60-65 | a path starting with "." gets the package name in front; any other path is kept |
| ToolRegistry.ResolvedIsAbsolute | backend/app/services/tools/tool_registry.py:60-65 | with an absolute package name, no resolved path is relative |
| ToolRegistry.GetToolClass | backend/app/services/tools/tool_registry.py:50-76 | a class is found only for a known, non-empty entry that names both module and class, and for such an entry it is the named class imported from the resolved module |
| ToolRegistry.Create | backend/app/services/tools/tool_registry.py:84-117 | an instance is built only for a known, non-empty entry that names both module and factory, and for such an entry it is that factory from the resolved module applied to the entry's `config` ({} when absent) |
| ToolRegistry.Describe | backend/app/services/tools/tool_registry.py:128-133 | name defaults to the key, description to "", use cases to [] |
| ToolRegistry.DescribeAll | backend/app/services/tools/tool_registry.py:128-133 | one description per entry, in table order |
| ToolRegistry.Registry.constructor | backend/app/services/tools/tool_registry.py:15-24 | the loaded tools, with no repeated name, and an empty cache |
| ToolRegistry.Registry.CreateToolInstance | backend/app/services/tools/tool_registry.py:78-117 | a cached instance is returned unchanged; otherwise a successful creation is cached under the name and a failed one leaves the cache as it was |
| ToolRegistry.Registry.GetToolInstance | backend/app/services/tools/tool_registry.py:119-121 | the same outcome and cache update as creating the instance |
| ToolRegistry.Registry.GetToolDescriptionForSelection | backend/app/services/tools/tool_registry.py:123-135 | one description per available tool, in table order |
| ToolRegistry.CachedInstanceIsStable | backend/app/services/tools/tool_registry.py:78-117 | once an instance is created, a second request returns that same instance whatever the factory would now build |
| FetchTool.Truncate | backend/app/services/tools/fetch_tool.py:242-249 | content up to 8000 characters is unchanged; longer content keeps its first 8000 characters and gets a 3-character marker |
| FetchTool.Summary | backend/app/services/tools/fetch_tool.py:242-249 | content up to 200 characters is its own summary; otherwise its first 200 characters plus a 3-character marker |
| FetchTool.LinksOfAppend | backend/app/services/tools/fetch_tool.py:252-266 | the links of two runs of anchors are the first run's links followed by the second's, so document order is kept |
| FetchTool.LinksOfClean | backend/app/services/tools/fetch_tool.py:252-266 | at most one link per anchor; each link has non-empty stripped text and the joined url of an anchor with a non-empty href |
| FetchTool.PageFieldsBounds | backend/app/services/tools/fetch_tool.py:213-282 | content at most 8003 characters, summary at most 203, at most 10 links; short content keeps exactly the words of the extracted text |
| FetchTool.CollectLinks | backend/app/services/tools/fetch_tool.py:252-264 | the loop yields exactly the links of the anchors, in document order |
| FetchTool.ParseWebpageContent | backend/app/services/tools/fetch_tool.py:213-282 | the parsed fields are the page's stripped title, its normalised and truncated text, that text's summary and its first 10 links; "Parse Error" when parsing raises |
| FetchTool.Execute | backend/app/services/tools/fetch_tool.py:91-167 | a missing url and an invalid url each give their error reply; a fetch error is handed back unchanged; otherwise the parsed fields, status and content type come back with no error |
| SearchTool.NewSearchTool | backend/app/services/tools/search_tool.py:14-19 | it succeeds iff both `api_key` and `engine_id` are given, taking them as the credentials; `base_url` has its default; a missing key names itself |
| SearchTool.RequestFor | backend/app/services/tools/search_tool.py:188-198 | `num` never exceeds 10 and equals the request when that is at most 10; query and credentials are sent as given |
| SearchTool.PublishedDate | backend/app/services/tools/search_tool.py:211 | an item fails exactly when it has an empty `metatags` list, with an index error |
| SearchTool.ResultsOfItems | backend/app/services/tools/search_tool.py:204-215 | the mapping fails iff some item fails; otherwise there is one result per item, in order |
| SearchTool.PerformSearch | backend/app/services/tools/search_tool.py:188-215 | a failed request gives its error; otherwise the loop's outcome equals mapping the response's items |
| SearchTool.ResultsErrExtends | backend/app/services/tools/search_tool.py:204-215 | the first failing item decides the outcome of the whole mapping |
| SearchTool.Execute | backend/app/services/tools/search_tool.py:129-186 | the three guards (no query, no credentials, search error) each give their reply; otherwise the search results; search time is always 0.0 |
| FileTool.BaseName | backend/app/services/tools/file_tool.py:136-146 | the name is the part of the path after the last "/" and contains no "/" |
| FileTool.Suffix | backend/app/services/tools/file_tool.py:136-146 | the suffix is empty or a "." then at least one character with no further "."; it ends the path |
| FileTool.Check | backend/app/services/tools/file_tool.py:97-160 | a file is accepted only when its id maps to an existing path, its size is at most 1 MiB, its lower-cased extension is allowed and its text decodes |
| FileTool.CheckOrder | backend/app/services/tools/file_tool.py:100-160 | the guards fire in source order (id, existence, size, extension, decoding), and a file is accepted iff all of them pass |
| FileTool.Formatted | backend/app/services/tools/file_tool.py:162-173 | the formatted result starts with the header naming the path and ends with the file's text |
| FileTool.Uploads.CleanupUploadedFile | backend/app/services/tools/file_tool.py:186-202 | the file is gone from the disk and the id from the mapping, and nothing else changes |
| FileTool.Uploads.Execute | backend/app/services/tools/file_tool.py:97-183 | a failure leaves mapping and disk untouched; a success returns the text and forgets both the id and the file |
| FileTool.ExecuteAsShipped | backend/app/services/tools/file_tool.py:111-122 | every call fails; with an id the error is the import error's message |
| FileTool.ShippedToolNeverReads | backend/app/services/tools/file_tool.py:111-122 | a registered, small, decodable ".txt" file is served by the corrected tool and refused by the shipped one |
| McpClient.MemoryTool | backend/app/services/mcp_client.py:199-216 | "set" stores the key and value, "get" (the default) answers from the key, any other action is reported as unknown |
| McpClient.ExtractDomain | backend/app/services/mcp_client.py:173-180 | the network location of the url, or the url itself when parsing raises |
| McpClient.FormatGoogleSearchResults | backend/app/services/mcp_client.py:143-171 | one result per response item, in order, each with its item's link as url |
| McpClient.ExecuteSearchTool | backend/app/services/mcp_client.py:97-141 | missing credentials fail before any request; a success echoes the query and names the API source |
| McpClient.FetchTool | backend/app/services/mcp_client.py:182-197 | a simulated 200 text/html page for the requested url |
| McpClient.Dispatch | backend/app/services/mcp_client.py:69-76 | search, fetch and memory reach their handlers, whose output or error is passed on unchanged; any other name is an "Unknown tool type" error |
| McpClient.ToolInfosOfEnabled | backend/app/services/mcp_client.py:34-44 | over enabled tools, every listed tool is enabled and a name is listed iff it is in the table |
| McpClient.ListAvailableToolsEnabled | backend/app/services/mcp_client.py:34-44 | the client lists a tool iff that tool is enabled |
| McpClient.Client.constructor | backend/app/services/mcp_client.py:26-28 | the client keeps the environment's tool table and its enabled part, and starts with no rows |
| McpClient.Client.RecordToolCall | backend/app/services/mcp_client.py:218-244 | the row is inserted with an empty result iff the table exists; otherwise nothing changes |
| McpClient.Client.UpdateToolCall | backend/app/services/mcp_client.py:246-265 | the row gets its result and status iff the table exists; otherwise nothing changes |
| McpClient.Client.ExecuteTool | backend/app/services/mcp_client.py:46-95 | a disabled tool is refused with nothing written; without the table the database error escapes; otherwise the call is inserted as "running" and updated once, to "success" with the output or "error" with the message |
| McpClient.ShippedSchemaFailsEveryCall | backend/app/services/mcp_client.py:218-244 | on the tables `init_db` creates, even an enabled memory call fails with "no such table" |
| McpClient.IntendedSchemaRecordsCall | backend/app/services/mcp_client.py:218-244 | with a `tool_calls` table the same call succeeds and its row is marked "success" with the output |
| Chat.Title | backend/app/api/routes/chat.py:79 | the title is never empty: the message's first 40 characters, or "New Chat" |
| Chat.OpenRouterClient | backend/app/api/routes/chat.py:146-158 | the OpenRouter key and base url; the model defaults; each optional header is sent iff its setting is non-empty (this is the client `Generate` reaches the model through for that provider) |
| Chat.UpdateContent | backend/app/api/routes/chat.py:186-195 | every row keeps its id, session and role; the row with that id has the text appended to its content, and every other row keeps its content |
| Chat.ConcatChunks | backend/app/api/routes/chat.py:113-120 | the echo chunks joined are the words joined by single spaces |
| Chat.NonEmptyDeltasOfDeltas | backend/app/api/routes/chat.py:166-168 | the model's deltas emitted are their concatenation, and non-empty deltas are collected as they are |
| Chat.EchoEventsText | backend/app/api/routes/chat.py:113-120 | the echo stream emits and collects the text's words joined by single spaces, then ends with one `done` |
| Chat.NormalizeEcho | backend/app/api/routes/chat.py:172 | an "Echo: " prefix adds the word "Echo:" before the text's words |
| Chat.AppendMessage | backend/app/api/routes/chat.py:63-71 | appending a row adds exactly its id, keeps every existing row, and keeps ids distinct when the new id is unused |
| Chat.ChatService.EnsureSession | backend/app/api/routes/chat.py:49-60 | a given non-empty id is used unchecked; otherwise a session with a fresh id and the title is inserted |
| Chat.ChatService.InsertMessage | backend/app/api/routes/chat.py:63-71 | the row is appended iff its session exists (foreign key); otherwise nothing changes |
| Chat.ChatService.CreateChat | backend/app/api/routes/chat.py:74-106 | an empty message (422) and an unknown session id (foreign key) change nothing; otherwise the user row, the empty assistant row and one ticket are stored, with "Echo: " before the payload on the fallback |
| Chat.ChatService.RegisterStream | backend/app/api/routes/chat.py:93-104 | both ticket maps gain the stream id, and the service invariant is kept |
| Chat.ChatService.StreamChat | backend/app/api/routes/chat.py:132-135 | a ticket is redeemed at most once: it is popped from both maps; an unknown id is a 404 that changes nothing |
| Chat.ChatService.AppendToPlaceholder | backend/app/api/routes/chat.py:186-193 | the text is appended to the placeholder row, and every ticket still points at an assistant row |
| Chat.ChatService.Generate | backend/app/api/routes/chat.py:139-195 | the model is asked through the provider's client with exactly the system prompt and the payload; the events are the stream's deltas then `done`; the collected text is appended only when something was collected; a model failure is reported after `done` |
| Chat.PersistedIsEmitted | backend/app/api/routes/chat.py:139-195 | every stream ends with `done`, and the stored text equals the text of the deltas the client received |
| Chat.FallbackEndsTwice | backend/app/api/routes/chat.py:172-195 | the echo fallback sends `done` twice: once from the echo, once from `finally` |
| Chat.FallbackEchoesTwice | backend/app/api/routes/chat.py:172-185 | the fallback stores the message with "Echo: " in front twice, whitespace normalised |
| Chat.EchoIsStored | backend/app/api/routes/chat.py:186-193 | on the fallback something is always collected, and it is the doubly prefixed echo |
| Chat.FilledPlaceholder | backend/app/api/routes/chat.py:186-193 | appending to a freshly created, still empty assistant row makes the appended text its whole content |
| Chat.OpenStream | backend/app/api/routes/chat.py:74-135 | creating a chat in a new session and redeeming its ticket leaves the user row and the empty assistant row, and the ticket gone |
| Chat.EchoExchange | backend/app/api/routes/chat.py:74-195 | a whole fallback exchange stores the doubly prefixed echo in the assistant row, ends with two `done` events and spends the ticket |
| CountLoc.Tally.constructor | count_loc.py:54-59 | a new tally is all zeros |
| CountLoc.Tally.Add | count_loc.py:61-65 | the tally becomes the componentwise sum |
| CountLoc.PlusPartitioned | count_loc.py:61-65 | adding two tallies whose categories sum to their totals gives such a tally |
| CountLoc.Lines | count_loc.py:112 | no line contains a line break |
| CountLoc.LinesRoundTrip | count_loc.py:112 | the lines joined by line breaks give back the content, less one final line break |
| CountLoc.DelimitersOf | count_loc.py:91-107 | only python, ts and js have a line-comment prefix; every block delimiter is non-empty |
| CountLoc.FirstStartFrom | count_loc.py:128-137 | the first delimiter pair whose start token is in the line, or none |
| CountLoc.Classify | count_loc.py:112-146 | a line is blank iff it strips to nothing; code iff it is outside a block with no block start and no line comment; a block closes only on a line holding its end token |
| CountLoc.RunCounts | count_loc.py:112-146 | every line is counted once in the total and once in exactly one category |
| CountLoc.FileCounts | count_loc.py:83-148 | an unreadable file counts nothing; otherwise the total is its number of lines and the categories partition it |
| CountLoc.FindBlockStart | count_loc.py:128-137 | the loop stops at the first pair whose start token occurs in the line |
| CountLoc.ClassifyLine | count_loc.py:114-146 | one pass of the loop body gives the category and block state of the line |
| CountLoc.CountLines | count_loc.py:109-148 | the loop's tally is the line-by-line classification of the content |
| CountLoc.CountFile | count_loc.py:83-148 | the tally of the file's content, zero when it cannot be read |
| CountLoc.BlankBeforeBlock | count_loc.py:114-117 | a whitespace-only line is blank even inside a block, and leaves the state alone |
| CountLoc.InsideBlock | count_loc.py:119-124 | inside a block every non-blank line is a comment; the block closes exactly on a line holding the end token |
| CountLoc.PythonDocstringStaysOpen | count_loc.py:127-137 | a one-line Python docstring leaves the block open, so the next non-blank line counts as a comment |
| CountLoc.HtmlHasNoLineComment | count_loc.py:100-103 | in HTML a line without a block start is code whatever it begins with |
| CountLoc.ScriptBlockClosesOnSameLine | count_loc.py:127-137 | a one-line `/* … */` comment closes on its line |
| CountLoc.Ext | count_loc.py:76 | the extension is empty or a "." with no further "."; it ends the name, and something other than dots precedes it |
| CountLoc.LangOf | count_loc.py:73-79 | a file is counted iff its name is not ignored and its lower-cased extension is known, in that extension's language |
| CountLoc.DotfileNotCounted | count_loc.py:76-79 | a name whose only dot is its first character is never counted |
| CountLoc.CountedExtension | count_loc.py:76-79 | a plain base name with a known extension, in any letter case, is counted in that language |
| CountLoc.FilesHereYielded | count_loc.py:73-80 | the files yielded from one listing have a language and lie in that directory |
| CountLoc.IterFilesYielded | count_loc.py:68-80 | only counted files are yielded, and never from inside an ignored directory |
| CountLoc.SubdirFilesYielded | count_loc.py:69-71 | the pruned subdirectories contribute nothing |
| CountLoc.TalliedPartitioned | count_loc.py:156-160 | every file's tally is partitioned into code, comment and blank |
| CountLoc.SumFilesPartitioned | count_loc.py:156-160 | the overall tally is partitioned too |
| CountLoc.PerLangKeys | count_loc.py:159 | a language has a tally iff some file is in it |
| CountLoc.OverallIsSumOfLanguages | count_loc.py:156-160 | the overall tally is the sum of the per-language tallies |
| CountLoc.ReportAddsUp | count_loc.py:170-173 | the languages reported, each once, add up to the overall totals |
| CountLoc.SummarizeFiles | count_loc.py:151-160 | the loop's overall and per-language tallies are the sums of the files' tallies, and it counts every file |
| CountLoc.Summarize | count_loc.py:151-160 | the same over the files found under the root, with the overall tally partitioned |

## Left out

- HTTP, the language model SDK (`openai_stream.py`), the HTML parser, `urlparse` and `urljoin` are not modelled. They are parameters of the operations that call them.
- SSE framing and JSON encoding are not modelled. An event is a `Delta(text)` or `Done` value, and a JSON body is a datatype with optional fields.
- The echo fallback's JSON re-parsing of its own events, and its `except`, are left out. Parsing an event the code just produced always succeeds.
- Asynchrony, the `asyncio.sleep` pacing, client disconnects and concurrent requests are not modelled. Each operation runs to completion on its own.
- The `datetime` clock and the `uuid4` ids are parameters. Fresh ids are required to be unused.
- `created_at`, and the `search_time` floats of the MCP client, are not modelled.
- `backend/app/api/routes/tools.py` and `backend/app/main.py` are not part of this model. They only wire the modelled operations to routes.
- The tools' long prompt and description strings (`get_tool_description`, `get_usage_conditions`) are left out. They are constant text.
- `print` logging, and the printing of `main()` in `count_loc.py`, are left out. The printed numbers are the tallies the model computes.
- Text.Lower: lower-cases ASCII letters only, because Python's full Unicode case mapping is not modelled.
- CountLoc.Lines: splits on "\n" only, because `splitlines()`'s other line boundaries ("\r", "\r\n", form feed and the like) are not modelled.
- CountLoc.Summarize: takes the directory tree with the files' contents as a value, because `os.walk` and file reading are I/O. An unreadable file has content `None`.
- FetchTool.Execute: the generic `except` around the steps is left out, because no modelled step raises. `_fetch_webpage` itself is a parameter.
- SearchTool.Execute: in the `except` path the reply echoes the query that was passed, because the model's query parameter is already a string or absent. A non-string query is not modelled, and neither is a non-integer `num_results`: the model types it as an integer, so the TypeError that `min(num_results, 10)` would raise, and the "Search tool error: …" reply the generic handler makes of it, cannot occur.
- `load_dotenv()` in `Settings.__init__` is not modelled: the environment the settings read is a parameter, taken to already include whatever a `.env` file would add.
- ToolRegistry.LoadConfig: a YAML file whose `tools` key maps to null is not modelled. `config.get('tools', {})` returns `None` for it, and later calls would raise.
- ToolRegistry.GetToolClass and ToolRegistry.Create: importing modules and calling factories are parameters that return `None` when they raise.
- ToolRegistry.Create: an entry whose `config` key maps to null is not modelled. The source passes `None` to the factory, while the model passes an absent `config` as {}.
- The `tool_calls` table is not created by `init_db`, although the rest of the backend writes to it. The model follows the code, and `Database.InitDbTables` holds only `sessions` and `messages`.
- The echo fallback puts "Echo: " in front of the message twice and sends `done` twice. The model follows the code: see `Chat.FallbackEchoesTwice` and `Chat.FallbackEndsTwice`.

## Findings

| source | as written | input that shows it | evidently intended | confidence | as-written member | corrected member |
|---|---|---|---|---|---|---|
| backend/app/services/tools/tool_registry.py:45-48 | `is_tool_enabled` treats an entry with no keys as falsy and reports it disabled | the table `{"foo": {}}`: `get_available_tools` lists foo, `is_tool_enabled("foo")` is False | a tool is enabled exactly when it is available | high, not executed | ToolRegistry.EnabledDisagreesWithAvailable | ToolRegistry.EnabledIntendedIffAvailable |
| backend/app/services/tools/file_tool.py:111-122 | `execute` imports `_uploaded_files` from the chat routes module, which does not define it | any call with a `file_id`: the import raises and the generic handler replies with an error | the registered upload is read and then cleaned up | high, not executed | FileTool.ShippedToolNeverReads | FileTool.Uploads.Execute |
| backend/app/services/mcp_client.py:218-244 | `_record_tool_call` inserts into `tool_calls`, which `init_db` never creates | any call of an enabled tool on a fresh database: both the insert and the update fail, and the database error escapes `execute_tool` | the call is recorded and its outcome stored | medium (the table could be created outside this repository), not executed | McpClient.ShippedSchemaFailsEveryCall | McpClient.IntendedSchemaRecordsCall |
