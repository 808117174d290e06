/** The fixed table of MCP tools (search, fetch, memory) and lookups over it. */
module McpConfig {
  import opened Text
  import Settings

  /** `MCPToolConfig`; the keyword arguments it also accepts are never passed, so they are not modelled. */
  datatype ToolConfig = ToolConfig(
    name: string,
    description: string,
    enabled: bool,
    serverUrl: string,
    apiKey: string,
    engineId: string,
    searchEngine: string)

  /** `MCP_TOOLS`, keyed by tool name. */
  type ToolTable = map<string, ToolConfig>

  /** The keys of `MCP_TOOLS` in insertion order, which is the order dict iteration follows. */
  const ToolOrder: seq<string> := ["search", "fetch", "memory"]

  /** `os.getenv(var, "true").lower() == "true"` */
  function EnabledFromEnv(env: Settings.Env, variable: string): bool
  {
    Lower(Settings.Getenv(env, variable, "true")) == "true"
  }

  /** `MCP_TOOLS`, computed from the environment once at import time. */
  function McpTools(env: Settings.Env): ToolTable
  {
    map[
      "search" := ToolConfig("search", "网络搜索功能，可以搜索最新的信息和新闻",
        EnabledFromEnv(env, "MCP_SEARCH_ENABLED"),
        Settings.Getenv(env, "MCP_SEARCH_URL", "http://localhost:3001"),
        Settings.Getenv(env, "GOOGLE_CSE_API_KEY", ""),
        Settings.Getenv(env, "GOOGLE_CSE_ENGINE_ID", ""),
        "google"),
      "fetch" := ToolConfig("fetch", "网页内容获取功能，可以获取指定URL的内容",
        EnabledFromEnv(env, "MCP_FETCH_ENABLED"),
        Settings.Getenv(env, "MCP_FETCH_URL", "http://localhost:3002"), "", "", ""),
      "memory" := ToolConfig("memory", "持久化记忆功能，可以存储和检索用户偏好",
        EnabledFromEnv(env, "MCP_MEMORY_ENABLED"),
        Settings.Getenv(env, "MCP_MEMORY_URL", "http://localhost:3003"), "", "", "")
    ]
  }

  /** The table holds exactly search, fetch and memory, each named after its key, each enabled
      exactly when its variable is unset or reads "true" in any letter case, and only search
      carries the Google credentials. */
  lemma McpToolsShape(env: Settings.Env)
    ensures McpTools(env).Keys == {"search", "fetch", "memory"}
    ensures forall n :: n in McpTools(env) ==> McpTools(env)[n].name == n
    ensures McpTools(env)["search"].enabled <==> Lower(Settings.Getenv(env, "MCP_SEARCH_ENABLED", "true")) == "true"
    ensures McpTools(env)["fetch"].enabled <==> Lower(Settings.Getenv(env, "MCP_FETCH_ENABLED", "true")) == "true"
    ensures McpTools(env)["memory"].enabled <==> Lower(Settings.Getenv(env, "MCP_MEMORY_ENABLED", "true")) == "true"
    ensures McpTools(env)["search"].apiKey == Settings.Load(env).googleCseApiKey
    ensures McpTools(env)["search"].engineId == Settings.Load(env).googleCseEngineId
    ensures McpTools(env)["fetch"].apiKey == [] && McpTools(env)["memory"].apiKey == []
  {
  }

  /** With no variable set, every tool is enabled. */
  lemma AllEnabledByDefault(env: Settings.Env)
    requires "MCP_SEARCH_ENABLED" !in env && "MCP_FETCH_ENABLED" !in env && "MCP_MEMORY_ENABLED" !in env
    ensures forall n :: n in McpTools(env) ==> McpTools(env)[n].enabled
  {
    assert Lower("true") == "true";
  }

  /** `get_enabled_tools()`: the entries whose `enabled` is set, unchanged. */
  function GetEnabledTools(tools: ToolTable): (r: ToolTable)
    ensures forall n :: n in r <==> n in tools && tools[n].enabled
    ensures forall n :: n in r ==> r[n] == tools[n]
  {
    map n | n in tools && tools[n].enabled :: tools[n]
  }

  /** `get_tool_config(name)`; the `ValueError` becomes an error value. */
  function GetToolConfig(tools: ToolTable, name: string): (r: Result<ToolConfig, string>)
    ensures r.Ok? <==> name in tools
    ensures r.Ok? ==> r.value == tools[name]
    ensures r.Err? ==> r.error == "Tool '" + name + "' not found"
  {
    if name !in tools then Err("Tool '" + name + "' not found") else Ok(tools[name])
  }

  /** `is_tool_enabled(name)` */
  function IsToolEnabled(tools: ToolTable, name: string): bool
  {
    if name !in tools then false else tools[name].enabled
  }

  /** A tool is enabled exactly when it is listed by `get_enabled_tools()`, and exactly when
      its configuration can be fetched and says so. */
  lemma EnabledIffListed(tools: ToolTable, name: string)
    ensures IsToolEnabled(tools, name) <==> name in GetEnabledTools(tools)
    ensures IsToolEnabled(tools, name) <==> GetToolConfig(tools, name).Ok? && GetToolConfig(tools, name).value.enabled
  {
  }
}
