/** The helpers the Flask extensions are configured with: CSV and boolean
    environment readers, the rate-limit key (who a request is counted
    against) and the rate-limit exemption filter. The environment, the
    request and the signed-in user are parameters. */
module Extensions {
  import opened PyText
  import opened PyValues
  import AppConfig

  /** What `_csv_to_list` may be given: nothing, a string, or an iterable of values. */
  datatype CsvInput = NoValue | Text(s: string) | Values(vs: seq<PyValue>)

  /** `_csv_to_list(value)`. */
  function CsvToList(value: CsvInput): (r: seq<string>)
    ensures value == NoValue || value == Text([]) || value == Values([]) ==> r == []
    ensures forall k :: 0 <= k < |r| ==> r[k] != [] && Strip(r[k]) == r[k]
    ensures value.Text? ==> forall k :: 0 <= k < |r| ==> ',' !in r[k]
    ensures value.Values? ==> |r| <= |value.vs|
  {
    match value
    case NoValue => []
    case Text(s) => if s == [] then [] else CsvItems(s)
    case Values(vs) => StrippedNonBlank(seq(|vs|, i requires 0 <= i < |vs| => Str(vs[i])))
  }

  /** `_csv_env(key, default_csv)`: the variable's items, or the default's
      when the variable is unset or blank. */
  function CsvEnv(env: AppConfig.Environment, key: string, defaultCsv: string): (r: seq<string>)
    ensures key !in env || IsBlank(env[key]) ==> r == CsvToList(Text(defaultCsv))
    ensures key in env && !IsBlank(env[key]) ==> r == CsvItems(env[key])
  {
    if key !in env || env[key] == [] || IsBlank(env[key]) then CsvToList(Text(defaultCsv))
    else CsvToList(Text(env[key]))
  }

  /** On a non-blank value `_csv_env` and the configuration's `env_csv`
      agree; they differ only on blank values, where `_csv_env` falls back
      to its default and `env_csv` reads no items. */
  lemma {:induction false} CsvEnvAgreesWithEnvCsv(env: AppConfig.Environment, key: string, default: string)
    requires key in env && !IsBlank(env[key])
    ensures CsvEnv(env, key, default) == AppConfig.EnvCsv(env, key, default)
  {
  }

  /** The words `_bool_env` reads as true. */
  const TrueWords: set<string> := {"1", "true", "yes", "on"}

  /** `_bool_env(key, default)`. */
  function BoolEnv(env: AppConfig.Environment, key: string, default: bool): (r: bool)
    ensures key !in env ==> r == default
    ensures key in env ==> (r <==> Lower(Strip(env[key])) in TrueWords)
  {
    if key !in env then default
    else Lower(Strip(env[key])) in TrueWords
  }

  /** `_bool_env` and the configuration's `env_bool` read every value alike
      except "y", which only `env_bool` takes as true; so `RATELIMIT_ENABLED=y`
      reads as enabled in the configuration and disabled here. */
  lemma {:induction false} BoolEnvDiffersOnlyOnY(env: AppConfig.Environment, key: string, default: bool)
    ensures BoolEnv(env, key, default) != AppConfig.EnvBool(env, key, default)
            <==> key in env && Lower(Strip(env[key])) == "y"
  {
  }

  /** A path the rate limiter never counts, before looking at the extra prefixes. */
  predicate AlwaysExempt(p: string) {
    p == "/health" || StartsWith(p, "/static/") || p == "/favicon.ico"
  }

  /** The prefix loop of `_limiter_skip_static_and_health`. */
  function ExemptByPrefix(p: string, prefixes: seq<string>): (r: bool)
    ensures r <==> exists i :: 0 <= i < |prefixes| && prefixes[i] != [] && StartsWith(p, prefixes[i])
  {
    if prefixes == [] then false
    else if prefixes[0] != [] && StartsWith(p, prefixes[0]) then true
    else ExemptByPrefix(p, prefixes[1..])
  }

  /** `_limiter_skip_static_and_health()` for the request path (`None` when
      the request has none) and `LIMITER_EXEMPT_PATH_PREFIXES`. */
  function LimiterSkip(path: Option<string>, prefixes: seq<string>): (r: bool)
    ensures var p := if path.Some? then path.value else "";
      r <==> AlwaysExempt(p) || exists i :: 0 <= i < |prefixes| && prefixes[i] != [] && StartsWith(p, prefixes[i])
  {
    var p := if path.Some? then path.value else "";
    AlwaysExempt(p) || ExemptByPrefix(p, prefixes)
  }

  /** An empty prefix in the setting exempts nothing. */
  lemma {:induction false} EmptyPrefixExemptsNothing(path: Option<string>, before: seq<string>, after: seq<string>)
    ensures LimiterSkip(path, before + [""] + after) == LimiterSkip(path, before + after)
  {
    var p := if path.Some? then path.value else "";
    var withEmpty := before + [""] + after;
    var without := before + after;
    if exists i :: 0 <= i < |withEmpty| && withEmpty[i] != [] && StartsWith(p, withEmpty[i]) {
      var i :| 0 <= i < |withEmpty| && withEmpty[i] != [] && StartsWith(p, withEmpty[i]);
      var j := if i < |before| then i else i - 1;
      assert without[j] == withEmpty[i];
    }
    if exists j :: 0 <= j < |without| && without[j] != [] && StartsWith(p, without[j]) {
      var j :| 0 <= j < |without| && without[j] != [] && StartsWith(p, without[j]);
      var i := if j < |before| then j else j + 1;
      assert withEmpty[i] == without[j];
    }
  }

  /** The signed-in user as the rate limiter sees it: whether it is
      authenticated, its `id` and `oid` attributes (`None` when missing) and
      what `get_id()` returns, when the user has that method. */
  datatype User = User(isAuthenticated: bool, id: PyValue, oid: PyValue, getId: Option<PyValue>)

  /** The parts of the request the key is built from. The `X-Forwarded-For`
      header is the empty string when it is not sent. */
  datatype Request = Request(accessRoute: seq<string>, forwardedFor: string, remoteAddr: Option<string>)

  /** Python's `a or b`. */
  function Or(a: PyValue, b: PyValue): PyValue {
    if Truthy(a) then a else b
  }

  /** `id or oid or get_id()`: the first truthy identifier. */
  function UserId(u: User): (uid: PyValue)
    ensures Truthy(uid) <==> Truthy(u.id) || Truthy(u.oid) || (u.getId.Some? && Truthy(u.getId.value))
    ensures Truthy(u.id) ==> uid == u.id
    ensures !Truthy(u.id) && Truthy(u.oid) ==> uid == u.oid
  {
    Or(Or(u.id, u.oid), if u.getId.Some? then u.getId.value else PyNone)
  }

  /** The first hop of `X-Forwarded-For`, stripped. */
  function FirstForwarded(req: Request): (ip: string)
    ensures ',' !in ip
  {
    var first := Split(req.forwardedFor, ',')[0];
    StripKeepsOut(first, ',');
    Strip(first)
  }

  /** The client address of `rate_limit_key`: the first access-route entry,
      else the first forwarded hop, else the remote address, else "unknown". */
  function ClientIp(req: Request): (ip: string)
    ensures ip != []
    ensures req.accessRoute != [] && req.accessRoute[0] != [] ==> ip == req.accessRoute[0]
    ensures (req.accessRoute == [] || req.accessRoute[0] == []) && FirstForwarded(req) != [] ==>
      ip == FirstForwarded(req)
    ensures (req.accessRoute == [] || req.accessRoute[0] == []) && FirstForwarded(req) == [] ==>
      ip == if req.remoteAddr.Some? && req.remoteAddr.value != [] then req.remoteAddr.value else "unknown"
  {
    var fromRoute := if req.accessRoute != [] then req.accessRoute[0] else "";
    var ip := if fromRoute == [] && req.forwardedFor != [] then FirstForwarded(req) else fromRoute;
    if ip != [] then ip
    else if req.remoteAddr.Some? && req.remoteAddr.value != [] then req.remoteAddr.value
    else "unknown"
  }

  /** `rate_limit_key()`: per user when signed in with an identifier,
      otherwise per client address. */
  function RateLimitKey(u: User, req: Request): (r: string)
    ensures u.isAuthenticated && Truthy(UserId(u)) ==> r == "user:" + Str(UserId(u))
    ensures !(u.isAuthenticated && Truthy(UserId(u))) ==> r == "ip:" + ClientIp(req)
  {
    if u.isAuthenticated && Truthy(UserId(u)) then "user:" + Str(UserId(u))
    else "ip:" + ClientIp(req)
  }

  /** User keys and address keys never collide, and an address key always
      names an address. */
  lemma {:induction false} RateLimitKeyKinds(u: User, req: Request)
    ensures StartsWith(RateLimitKey(u, req), "user:") <==> u.isAuthenticated && Truthy(UserId(u))
    ensures !StartsWith(RateLimitKey(u, req), "user:") ==>
      StartsWith(RateLimitKey(u, req), "ip:") && |RateLimitKey(u, req)| > 3
  {
    var r := RateLimitKey(u, req);
    if !(u.isAuthenticated && Truthy(UserId(u))) {
      assert r[0] == 'i';
    }
  }
}
