/** The application settings read from the process environment: the typed
    readers `env_bool`, `env_int`, `env_csv` and `env_timedelta_seconds`,
    and the two settings chosen by a rule, the database URI and the sign-in
    authority. The environment is a map from variable names to values. */
module AppConfig {
  import opened PyText

  type Environment = map<string, string>

  /** `os.getenv(key, default)`. */
  function GetEnv(env: Environment, key: string, default: string): string {
    if key in env then env[key] else default
  }

  /** The words `env_bool` reads as true. */
  const TrueWords: set<string> := {"1", "true", "yes", "y", "on"}

  /** `env_bool(key, default)`. */
  function EnvBool(env: Environment, key: string, default: bool): (r: bool)
    ensures key !in env ==> r == default
    ensures key in env ==> (r <==> Lower(Strip(env[key])) in TrueWords)
  {
    if key !in env then default
    else Lower(Strip(env[key])) in TrueWords
  }

  /** `env_int(key, default)`: the value as an integer, or the default when
      it does not read as one. */
  function EnvInt(env: Environment, key: string, default: int): (r: int)
    ensures key in env && ParseInt(env[key]).Some? ==> r == ParseInt(env[key]).value
    ensures key in env && ParseInt(env[key]).None? ==> r == default
  {
    var raw := GetEnv(env, key, IntToString(default));
    StripIdempotent(raw);
    match ParseInt(Strip(raw))
    case Some(v) => v
    case None => default
  }

  /** An unset variable gives the default back: `int(str(default))` is the
      default itself. */
  lemma {:induction false} EnvIntUnset(env: Environment, key: string, default: int)
    requires key !in env
    ensures EnvInt(env, key, default) == default
  {
    var raw := IntToString(default);
    IntToStringParses(default);
    StripIdempotent(raw);
  }

  /** `env_int` gives back any integer written in the environment, however
      it is padded with whitespace. */
  lemma {:induction false} EnvIntReadsWritten(env: Environment, key: string, n: int, default: int)
    requires key in env && Strip(env[key]) == IntToString(n)
    ensures EnvInt(env, key, default) == n
  {
    IntToStringParses(n);
    StripIdempotent(env[key]);
  }

  /** `env_timedelta_seconds(key, default_seconds)`, as its number of seconds. */
  function EnvTimedeltaSeconds(env: Environment, key: string, defaultSeconds: int): (r: int)
    ensures key in env && ParseInt(env[key]).Some? ==> r == ParseInt(env[key]).value
    ensures key in env && ParseInt(env[key]).None? ==> r == defaultSeconds
  {
    EnvInt(env, key, defaultSeconds)
  }

  /** `env_csv(key, default)`: no items for an empty value, otherwise the
      stripped, non-blank comma-separated items. */
  function EnvCsv(env: Environment, key: string, default: string): (r: seq<string>)
    ensures GetEnv(env, key, default) == [] ==> r == []
    ensures forall k :: 0 <= k < |r| ==> r[k] != [] && Strip(r[k]) == r[k] && ',' !in r[k]
  {
    var raw := GetEnv(env, key, default);
    if raw == [] then [] else CsvItems(raw)
  }

  /** A list written to the environment comma-separated is read back as it was. */
  lemma {:induction false} EnvCsvReadsWritten(env: Environment, key: string, items: seq<string>, default: string)
    requires forall k :: 0 <= k < |items| ==> items[k] != [] && Strip(items[k]) == items[k] && ',' !in items[k]
    requires key in env && env[key] == Join(",", items)
    ensures EnvCsv(env, key, default) == items
  {
    CsvItemsJoin(items);
    if env[key] == [] {
      assert CsvItems([]) == [] by {
        assert Split([], ',') == [[]];
      }
    }
  }

  function IsDoubleQuote(c: char): bool { c == '"' }

  function IsSingleQuote(c: char): bool { c == '\'' }

  /** `os.getenv("DATABASE_URL", "").strip().strip('"').strip("'")`. */
  function DatabaseUrl(env: Environment): string {
    StripWhere(StripWhere(Strip(GetEnv(env, "DATABASE_URL", "")), IsDoubleQuote), IsSingleQuote)
  }

  /** The ODBC connection string assembled from the `SQL*` variables. */
  function OdbcConnectionString(env: Environment): string {
    "Driver={" + GetEnv(env, "SQL_ODBC_DRIVER", "ODBC Driver 17 for SQL Server") + "};"
    + "Server=" + GetEnv(env, "SQLSERVER_HOST", "") + ";"
    + "Database=" + GetEnv(env, "SQLSERVER_DB", "") + ";"
    + "UID=" + GetEnv(env, "SQLSERVER_USER", "") + ";PWD=" + GetEnv(env, "SQLSERVER_PASSWORD", "") + ";"
    + "Encrypt=" + GetEnv(env, "SQL_ENCRYPT", "yes") + ";"
    + "TrustServerCertificate=" + GetEnv(env, "SQL_TRUST_CERT", "no") + ";"
    + "Connection Timeout=" + GetEnv(env, "SQL_TIMEOUT", "30") + ";"
    + "MARS_Connection=" + GetEnv(env, "SQL_MARS", "no") + ";"
  }

  const OdbcUriPrefix := "mssql+pyodbc:///?odbc_connect="

  /** `SQLALCHEMY_DATABASE_URI`: the cleaned `DATABASE_URL` when it is not
      empty, otherwise the ODBC string URL-encoded by `quotePlus` behind the
      pyodbc prefix. */
  function DatabaseUri(env: Environment, quotePlus: string -> string): (r: string)
    ensures DatabaseUrl(env) != [] ==> r == DatabaseUrl(env)
    ensures DatabaseUrl(env) == [] ==> r == OdbcUri(quotePlus(OdbcConnectionString(env)))
  {
    var url := DatabaseUrl(env);
    if url != [] then url
    else OdbcUri(quotePlus(OdbcConnectionString(env)))
  }

  /** The pyodbc URL carrying an encoded ODBC connection string. */
  function OdbcUri(encoded: string): (r: string)
    ensures StartsWith(r, OdbcUriPrefix) && r[|OdbcUriPrefix|..] == encoded
  {
    OdbcUriPrefix + encoded
  }

  /** A `DATABASE_URL` that is unset or only whitespace falls back to the
      ODBC connection. */
  lemma {:induction false} DatabaseUriFallback(env: Environment, quotePlus: string -> string)
    requires "DATABASE_URL" in env ==> IsBlank(env["DATABASE_URL"])
    ensures DatabaseUri(env, quotePlus) == OdbcUri(quotePlus(OdbcConnectionString(env)))
  {
  }

  /** A `DATABASE_URL` written inside double quotes is used without them. */
  lemma {:induction false} DatabaseUriUnquotes(env: Environment, quotePlus: string -> string, url: string)
    requires url != [] && "DATABASE_URL" in env && env["DATABASE_URL"] == "\"" + url + "\""
    requires !IsSpace(url[0]) && !IsDoubleQuote(url[0]) && !IsSingleQuote(url[0])
    requires !IsSpace(url[|url| - 1]) && !IsDoubleQuote(url[|url| - 1]) && !IsSingleQuote(url[|url| - 1])
    ensures DatabaseUri(env, quotePlus) == url
  {
    var raw := env["DATABASE_URL"];
    StripNoSpace(raw);
    assert raw[1..] == url + "\"";
    assert LStripWhere(raw, IsDoubleQuote) == url + "\"";
    assert (url + "\"")[..|url|] == url;
    assert RStripWhere(url + "\"", IsDoubleQuote) == url;
    assert StripWhere(url, IsSingleQuote) == url;
  }

  const AuthorityPrefix := "https://login.microsoftonline.com/"

  /** `AZURE_AUTHORITY`: the Microsoft login endpoint for the tenant, or the
      empty string when no tenant is configured. */
  function Authority(env: Environment): (r: string)
    ensures r == [] <==> GetEnv(env, "AZURE_TENANT_ID", "") == []
    ensures r != [] ==> r == AuthorityPrefix + GetEnv(env, "AZURE_TENANT_ID", "")
  {
    var tenant := GetEnv(env, "AZURE_TENANT_ID", "");
    if tenant != [] then AuthorityPrefix + tenant else ""
  }

  /** `AZURE_SCOPES`, default `User.Read`. */
  function AzureScopes(env: Environment): seq<string> {
    EnvCsv(env, "AZURE_SCOPES", "User.Read")
  }

  /** `BRASIF_ALLOWED_DOMAINS`, default `brasif.com.br`. */
  function AllowedDomains(env: Environment): seq<string> {
    EnvCsv(env, "BRASIF_ALLOWED_DOMAINS", "brasif.com.br")
  }

  /** An unset variable reads its default CSV text. */
  lemma {:induction false} EnvCsvDefault(env: Environment, key: string, default: string)
    requires key !in env && default != []
    requires !IsSpace(default[0]) && !IsSpace(default[|default| - 1]) && ',' !in default
    ensures EnvCsv(env, key, default) == [default]
  {
    StripNoSpace(default);
    assert Join(",", [default]) == default;
    EnvCsvReadsWritten(env[key := default], key, [default], default);
  }

  /** Unset, the scopes are `["User.Read"]`. */
  lemma {:induction false} AzureScopesDefault(env: Environment)
    requires "AZURE_SCOPES" !in env
    ensures AzureScopes(env) == ["User.Read"]
  {
    EnvCsvDefault(env, "AZURE_SCOPES", "User.Read");
  }

  /** Unset, the allow-list is `["brasif.com.br"]`. */
  lemma {:induction false} AllowedDomainsDefault(env: Environment)
    requires "BRASIF_ALLOWED_DOMAINS" !in env
    ensures AllowedDomains(env) == ["brasif.com.br"]
  {
    EnvCsvDefault(env, "BRASIF_ALLOWED_DOMAINS", "brasif.com.br");
  }
}
