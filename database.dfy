/** The part of the SQLite layer that is plain string handling, and the schema it creates. */
module Database {
  import opened Text
  import Settings

  /** `_database_path_from_url`: strips a leading "sqlite:///" and leaves any other url as it is. */
  function DatabasePathFromUrl(url: string): (path: string)
    ensures |path| <= |url| && path == url[|url| - |path|..]
    ensures StartsWith(url, Settings.SqlitePrefix) ==> url == Settings.SqlitePrefix + path
    ensures !StartsWith(url, Settings.SqlitePrefix) ==> path == url
  {
    var prefix := Settings.SqlitePrefix;
    if !StartsWith(url, prefix) then url else url[|prefix|..]
  }

  /** Building the url as the settings do and taking it apart again gives back the path. */
  lemma PathFromUrlRoundTrip(p: string)
    ensures DatabasePathFromUrl(Settings.SqlitePrefix + p) == p
  {
    var url := Settings.SqlitePrefix + p;
    assert url[..|Settings.SqlitePrefix|] == Settings.SqlitePrefix;
  }

  /** The database file is the `SQLITE_DB_PATH` value, "./data/app.db" when unset. */
  lemma DatabasePathOfSettings(env: Settings.Env)
    ensures DatabasePathFromUrl(Settings.Load(env).databaseUrl)
         == Settings.Getenv(env, "SQLITE_DB_PATH", Settings.DefaultDbPath)
  {
    PathFromUrlRoundTrip(Settings.Getenv(env, "SQLITE_DB_PATH", Settings.DefaultDbPath));
  }

  /** The tables `init_db` creates; `tool_calls` is not among them. */
  const InitDbTables: set<string> := {"sessions", "messages"}

  /** The tables the rest of the backend writes to, `tool_calls` included. */
  const IntendedTables: set<string> := InitDbTables + {"tool_calls"}
}
