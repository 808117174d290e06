/** Application settings: every field is computed once from environment values. */
module Settings {
  import opened Text

  /** The process environment: variable name to value. */
  type Env = map<string, string>

  /** `os.getenv(name, default)`: the value when the variable is set (even to ""), else the default. */
  function Getenv(env: Env, name: string, default: string): string
  {
    if name in env then env[name] else default
  }

  const DefaultCorsOrigins: string :=
    "http://localhost:5173,http://127.0.0.1:5173,http://localhost:3000,http://127.0.0.1:3000"
  const DefaultOpenRouterBaseUrl: string := "https://openrouter.ai/api/v1"
  const DefaultDbPath: string := "./data/app.db"
  const SqlitePrefix: string := "sqlite:///"

  datatype Settings = Settings(
    corsAllowOrigins: seq<string>,
    openaiApiKey: string,
    openaiModel: string,
    llmStreamingEnabled: bool,
    llmProvider: string,
    openrouterApiKey: string,
    openrouterBaseUrl: string,
    openrouterSiteUrl: string,
    openrouterSiteTitle: string,
    googleCseApiKey: string,
    googleCseEngineId: string,
    databaseUrl: string)

  /** `[o.strip() for o in parts if o.strip()]` */
  function StrippedNonEmpty(parts: seq<string>): seq<string>
  {
    if parts == [] then []
    else
      var o := Strip(parts[|parts| - 1]);
      StrippedNonEmpty(parts[..|parts| - 1]) + (if o != [] then [o] else [])
  }

  /** `o` is the stripped form of some part and is not empty. */
  predicate StrippedFrom(parts: seq<string>, o: string) {
    o != [] && exists p :: p in parts && Strip(p) == o
  }

  /** Every kept item is non-empty and has no surrounding whitespace. */
  lemma {:induction false} StrippedNonEmptyClean(parts: seq<string>)
    ensures forall o :: o in StrippedNonEmpty(parts) ==> o != [] && Strip(o) == o
  {
    if parts != [] {
      StrippedNonEmptyClean(parts[..|parts| - 1]);
      StripIdempotent(parts[|parts| - 1]);
    }
  }

  /** An item is kept exactly when it is the non-empty stripped form of some part. */
  lemma {:induction false} StrippedNonEmptyItems(parts: seq<string>)
    ensures forall o :: o in StrippedNonEmpty(parts) <==> StrippedFrom(parts, o)
  {
    if parts != [] {
      var init := parts[..|parts| - 1];
      var last := parts[|parts| - 1];
      StrippedNonEmptyItems(init);
      assert parts == init + [last];
      forall o ensures o in StrippedNonEmpty(parts) <==> StrippedFrom(parts, o) {
        if o in StrippedNonEmpty(init) {
          var p :| p in init && Strip(p) == o;
          assert p in parts;
        }
        if StrippedFrom(parts, o) {
          var p :| p in parts && Strip(p) == o;
          if p != last {
            assert p in init;
            assert StrippedFrom(init, o);
          }
        }
      }
    }
  }

  /** `cors_allow_origins`: the comma-separated value split, stripped, empties dropped. */
  function CorsOrigins(env: Env): seq<string>
  {
    StrippedNonEmpty(SplitOn(Getenv(env, "CORS_ALLOW_ORIGINS", DefaultCorsOrigins), ','))
  }

  /** No CORS origin is empty, padded with whitespace or contains a comma. */
  lemma CorsOriginsClean(env: Env)
    ensures forall o :: o in CorsOrigins(env) ==> o != [] && Strip(o) == o && ',' !in o
  {
    var parts := SplitOn(Getenv(env, "CORS_ALLOW_ORIGINS", DefaultCorsOrigins), ',');
    StrippedNonEmptyClean(parts);
    StrippedNonEmptyItems(parts);
    forall o | o in CorsOrigins(env) ensures ',' !in o {
      var p :| p in parts && Strip(p) == o;
      StripInside(p, ',');
    }
  }

  /** `llm_streaming_enabled`: true for an unset or empty value, else the lowercased
      value must be one of "1", "true", "yes". */
  function StreamingEnabled(v: string): bool
  {
    if v != [] then Lower(v) in {"1", "true", "yes"} else true
  }

  /** The flag ignores the case of the value, and it is off for any non-empty value outside the three spellings. */
  lemma StreamingEnabledCaseInsensitive(v: string)
    ensures StreamingEnabled(v) == StreamingEnabled(Lower(v))
    ensures StreamingEnabled(v) <==> v == [] || Lower(v) == "1" || Lower(v) == "true" || Lower(v) == "yes"
  {
    LowerIdempotent(v);
  }

  /** `llm_provider`: the lowercased value, "openai" when empty. */
  function Provider(v: string): (p: string)
    ensures p != []
    ensures Lower(p) == p
  {
    LowerIdempotent(if v != [] then v else "openai");
    Lower(if v != [] then v else "openai")
  }

  /** `Settings.__init__` as a function of the environment. */
  function Load(env: Env): (s: Settings)
    ensures s.llmProvider == Provider(Getenv(env, "LLM_PROVIDER", ""))
    ensures s.databaseUrl == SqlitePrefix + Getenv(env, "SQLITE_DB_PATH", DefaultDbPath)
  {
    Settings(
      CorsOrigins(env),
      Getenv(env, "OPENAI_API_KEY", ""),
      Getenv(env, "OPENAI_MODEL", ""),
      StreamingEnabled(Getenv(env, "LLM_STREAMING_ENABLED", "")),
      Provider(Getenv(env, "LLM_PROVIDER", "")),
      Getenv(env, "OPENROUTER_API_KEY", ""),
      Getenv(env, "OPENROUTER_BASE_URL", DefaultOpenRouterBaseUrl),
      Getenv(env, "OPENROUTER_SITE_URL", ""),
      Getenv(env, "OPENROUTER_SITE_TITLE", ""),
      Getenv(env, "GOOGLE_CSE_API_KEY", ""),
      Getenv(env, "GOOGLE_CSE_ENGINE_ID", ""),
      SqlitePrefix + Getenv(env, "SQLITE_DB_PATH", DefaultDbPath))
  }

  /** With no variable set: streaming on, provider "openai", the OpenRouter default base url,
      the default database file, the default CORS origins, empty keys, model and
      site fields. */
  lemma LoadDefaults(env: Env)
    requires forall name :: name !in env
    ensures Load(env).llmStreamingEnabled
    ensures Load(env).llmProvider == "openai"
    ensures Load(env).openrouterBaseUrl == "https://openrouter.ai/api/v1"
    ensures Load(env).databaseUrl == SqlitePrefix + DefaultDbPath
    ensures Load(env).openaiApiKey == [] && Load(env).openrouterApiKey == []
    ensures Load(env).googleCseApiKey == [] && Load(env).googleCseEngineId == []
    ensures Load(env).openaiModel == []
    ensures Load(env).openrouterSiteUrl == [] && Load(env).openrouterSiteTitle == []
    ensures Load(env).corsAllowOrigins == StrippedNonEmpty(SplitOn(DefaultCorsOrigins, ','))
  {
    assert Lower("openai") == "openai";
  }
}
