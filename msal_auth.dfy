/** The pure helpers of the Microsoft Entra ID sign-in: reading a claim out of
    an ID token, the e-mail domain allow-list, the job-title ("cargo")
    normalisation and the OAuth scopes taken from the configuration. The
    configuration values and the token claims are parameters. */
module MsalAuth {
  import opened PyText
  import opened PyValues
  import AppConfig

  /** The claims of an ID token; a key that is not there reads as `None`. */
  type Claims = map<string, PyValue>

  /** `claims.get(key)`. */
  function Claim(claims: Claims, key: string): PyValue {
    if key in claims then claims[key] else PyNone
  }

  /** `_extract_claim(claims, *keys)`: `str` of the value of the first key
      whose value is truthy, or `None` when no key has a truthy value. */
  function ExtractClaim(claims: Claims, keys: seq<string>): (r: Option<string>)
    ensures r.None? <==> forall k :: 0 <= k < |keys| ==> !Truthy(Claim(claims, keys[k]))
    ensures r.Some? ==> exists k :: 0 <= k < |keys| && Truthy(Claim(claims, keys[k]))
                                    && r.value == Str(Claim(claims, keys[k]))
  {
    if keys == [] then None
    else if Truthy(Claim(claims, keys[0])) then Some(Str(Claim(claims, keys[0])))
    else ExtractClaim(claims, keys[1..])
  }

  /** The key that wins is the FIRST with a truthy value: later keys never
      override it, earlier keys were all falsy. */
  lemma {:induction false} ExtractClaimFirst(claims: Claims, keys: seq<string>, k: nat)
    requires k < |keys| && Truthy(Claim(claims, keys[k]))
    requires forall j :: 0 <= j < k ==> !Truthy(Claim(claims, keys[j]))
    ensures ExtractClaim(claims, keys) == Some(Str(Claim(claims, keys[k])))
  {
    if k > 0 {
      assert !Truthy(Claim(claims, keys[0]));
      assert keys[1..][k - 1] == keys[k];
      ExtractClaimFirst(claims, keys[1..], k - 1);
    }
  }

  /** `email.split("@", 1)[1].lower().strip()`: the text after the first `@`. */
  function Domain(email: string): string
    requires '@' in email
  {
    Strip(Lower(email[IndexOf(email, '@') + 1..]))
  }

  /** `{d.lower().strip() for d in allowed if d.strip()}`. */
  function NormalizedDomains(allowed: seq<string>): set<string> {
    set d | d in allowed && !IsBlank(d) :: Strip(Lower(d))
  }

  /** `_email_domain_allowed(email)` with the configured allow-list (a missing
      setting is the empty list). */
  function EmailDomainAllowed(email: string, allowed: seq<string>): (r: bool)
    ensures allowed == [] ==> r
    ensures allowed != [] && '@' !in email ==> !r
    ensures allowed != [] && '@' in email ==>
      (r <==> exists d :: d in allowed && !IsBlank(d) && Strip(Lower(d)) == Domain(email))
  {
    if allowed == [] then true
    else if '@' !in email then false
    else Domain(email) in NormalizedDomains(allowed)
  }

  lemma {:induction false} LowerCharIdempotent(c: char)
    ensures LowerChar(LowerChar(c)) == LowerChar(c)
  {
  }

  /** `lower()` applied twice is `lower()` applied once. */
  lemma {:induction false} LowerIdempotent(s: string)
    ensures Lower(Lower(s)) == Lower(s)
  {
    forall i | 0 <= i < |s| ensures Lower(Lower(s))[i] == Lower(s)[i] {
      LowerCharIdempotent(s[i]);
    }
  }

  /** Lower-casing commutes with dropping a prefix. */
  lemma {:induction false} LowerSuffix(s: string, i: nat)
    requires i <= |s|
    ensures Lower(s[i..]) == Lower(s)[i..]
  {
  }

  lemma {:induction false} LowerCharAt(c: char)
    ensures LowerChar(c) == '@' <==> c == '@'
  {
  }

  /** Lower-casing keeps every `@` where it was and adds none. */
  lemma {:induction false} LowerKeepsAt(s: string)
    ensures ('@' in Lower(s)) <==> ('@' in s)
    ensures IndexOf(Lower(s), '@') == IndexOf(s, '@')
  {
    var l := Lower(s);
    forall k | 0 <= k < |s| ensures l[k] == '@' <==> s[k] == '@' {
      LowerCharAt(s[k]);
    }
    if '@' in s {
      var k :| 0 <= k < |s| && s[k] == '@';
      assert l[k] == '@';
    }
    if '@' in l {
      var k :| 0 <= k < |l| && l[k] == '@';
      assert s[k] == '@';
    }
  }

  /** The domain check ignores the case of the e-mail address. */
  lemma {:induction false} EmailDomainCaseInsensitive(email: string, allowed: seq<string>)
    ensures EmailDomainAllowed(Lower(email), allowed) == EmailDomainAllowed(email, allowed)
  {
    LowerKeepsAt(email);
    if '@' in email {
      DomainOfLower(email);
    }
  }

  lemma {:induction false} DomainOfLower(email: string)
    requires '@' in email
    ensures '@' in Lower(email) && Domain(Lower(email)) == Domain(email)
  {
    LowerKeepsAt(email);
    var le := Lower(email);
    var n := IndexOf(email, '@');
    var after := email[n + 1..];
    assert Domain(email) == Strip(Lower(after));
    assert Domain(le) == Strip(Lower(le[n + 1..]));
    LowerSuffix(email, n + 1);
    LowerIdempotent(after);
    var x := Lower(le[n + 1..]);
    assert x == Lower(after);
  }

  /** Python's `s[:n]`: a negative `n` counts from the end. */
  function SliceTo(s: string, n: int): (r: string)
    ensures n >= 0 ==> |r| == if n < |s| then n else |s|
    ensures n < 0 ==> |r| == if |s| + n > 0 then |s| + n else 0
    ensures r == s[..|r|]
  {
    if n >= 0 then (if n < |s| then s[..n] else s)
    else if |s| + n > 0 then s[..|s| + n] else []
  }

  /** Every whitespace character is a plain space that follows a non-space:
      no leading space, no run of two blanks, no tabs or line breaks. */
  predicate SingleSpaced(s: string) {
    forall i :: 0 <= i < |s| && IsSpace(s[i]) ==> s[i] == ' ' && i > 0 && !IsSpace(s[i - 1])
  }

  /** `" ".join(raw.split())` of a stripped, non-blank `raw`. */
  function CollapseSpaces(raw: string): string {
    Join(" ", SplitWs(raw))
  }

  /** `_normalize_cargo(value, max_length)`; the default `max_length` is
      `DefaultCargoLength`. */
  function NormalizeCargo(value: PyValue, maxLength: int): (r: Option<string>)
    ensures r.Some? && maxLength >= 0 ==> |r.value| <= maxLength
  {
    var raw := Strip(Str(value));
    if raw == [] then None
    else
      var normalized := CollapseSpaces(raw);
      if normalized == [] then None
      else Some(SliceTo(normalized, maxLength))
  }

  const DefaultCargoLength := 30

  /** Words joined by single spaces are single-spaced. */
  lemma {:induction false} JoinWordsSingleSpaced(words: seq<string>)
    requires forall k :: 0 <= k < |words| ==> words[k] != [] && NoneIn(words[k], IsSpace)
    ensures SingleSpaced(Join(" ", words))
    ensures words != [] ==> Join(" ", words) != []
  {
    if |words| > 1 {
      var w := words[0];
      var t := Join(" ", words[1..]);
      JoinWordsSingleSpaced(words[1..]);
      var s := w + " " + t;
      assert Join(" ", words) == s;
      forall i | 0 <= i < |w| ensures !IsSpace(s[i]) {
        assert s[i] == w[i];
      }
      forall i | 0 <= i < |s| && IsSpace(s[i])
        ensures s[i] == ' ' && i > 0 && !IsSpace(s[i - 1])
      {
        if i == |w| {
          assert s[i - 1] == w[|w| - 1];
        } else {
          assert s[i] == t[i - |w| - 1];
          assert s[i - 1] == t[i - |w| - 2];
        }
      }
    } else if |words| == 1 {
      assert Join(" ", words) == words[0];
    }
  }

  /** A prefix of a single-spaced string is single-spaced. */
  lemma {:induction false} SingleSpacedPrefix(s: string, n: nat)
    requires SingleSpaced(s) && n <= |s|
    ensures SingleSpaced(s[..n])
  {
    assert forall i :: 0 <= i < n ==> s[..n][i] == s[i];
  }

  /** A non-blank text whose first character is not a space collapses to a
      non-empty single-spaced text. */
  lemma {:induction false} CollapseSpacesShape(raw: string)
    requires raw != [] && !IsSpace(raw[0])
    ensures CollapseSpaces(raw) != [] && SingleSpaced(CollapseSpaces(raw))
  {
    assert LStripWhere(raw, IsSpace) == raw;
    assert SplitWs(raw) != [];
    JoinWordsSingleSpaced(SplitWs(raw));
  }

  /** The normalised title has single spaces only, and no title at all comes
      back exactly when the input is blank. */
  lemma {:induction false} NormalizeCargoShape(value: PyValue, maxLength: int)
    ensures NormalizeCargo(value, maxLength).None? <==> IsBlank(Str(value))
    ensures NormalizeCargo(value, maxLength).Some? ==> SingleSpaced(NormalizeCargo(value, maxLength).value)
  {
    var raw := Strip(Str(value));
    if raw != [] {
      CollapseSpacesShape(raw);
      var normalized := CollapseSpaces(raw);
      var cut := SliceTo(normalized, maxLength);
      SingleSpacedPrefix(normalized, |cut|);
      assert cut == normalized[..|cut|];
    }
  }

  /** The title keeps the input's words, in order, joined by single
      spaces, and loses only what lies beyond `max_length`: it is a prefix
      of that joined text, as long as the limit allows, and it has exactly
      the input's words when the limit does not cut it. */
  lemma {:induction false} NormalizeCargoWords(value: PyValue, maxLength: int)
    ensures var r := NormalizeCargo(value, maxLength);
            var joined := Join(" ", SplitWs(Str(value)));
            && (r.Some? ==> |r.value| <= |joined| && r.value == joined[..|r.value|])
            && (r.Some? && maxLength >= 0 ==> |r.value| == if maxLength < |joined| then maxLength else |joined|)
            && (r.Some? && maxLength >= |joined| ==> SplitWs(r.value) == SplitWs(Str(value)))
  {
    var text := Str(value);
    var r := NormalizeCargo(value, maxLength);
    if r.Some? {
      var normalized := CollapseSpaces(Strip(text));
      assert r.value == SliceTo(normalized, maxLength);
      CollapseKeepsWords(text, maxLength);
    }
  }

  /** `NormalizeCargoWords` for the text of the value. */
  lemma {:induction false} CollapseKeepsWords(text: string, maxLength: int)
    requires Strip(text) != []
    ensures CollapseSpaces(Strip(text)) == Join(" ", SplitWs(text))
    ensures maxLength >= |CollapseSpaces(Strip(text))| ==>
              SplitWs(SliceTo(CollapseSpaces(Strip(text)), maxLength)) == SplitWs(text)
  {
    var raw := Strip(text);
    SplitWsStrip(text);
    var words := SplitWs(raw);
    var normalized := Join(" ", words);
    if maxLength >= |normalized| {
      assert SliceTo(normalized, maxLength) == normalized;
      SplitWsJoin(words);
    }
  }

  /** The `AZURE_SCOPES` setting as the configuration may hold it. */
  datatype ScopesSetting = Missing | Text(s: string) | List(items: seq<string>)

  const DefaultScopes: seq<string> := ["User.Read"]

  /** `_get_scopes()`: a missing or empty setting means `["User.Read"]`; a
      string is read as comma-separated items; a list is taken as it is. */
  function GetScopes(setting: ScopesSetting): (r: seq<string>)
    ensures setting.Missing? || setting == Text([]) || setting == List([]) ==> r == DefaultScopes
    ensures setting.Text? && setting.s != [] ==>
      forall k :: 0 <= k < |r| ==> r[k] != [] && Strip(r[k]) == r[k] && ',' !in r[k]
    ensures setting.List? && setting.items != [] ==> r == setting.items
    ensures setting.List? ==> r != []
  {
    match setting
    case Missing => DefaultScopes
    case Text(s) => if s == [] then DefaultScopes else CsvItems(s)
    case List(items) => if items == [] then DefaultScopes else items
  }

  /** A scope string written as clean comma-separated scopes is read back as
      exactly those scopes. */
  lemma {:induction false} GetScopesOfJoined(scopes: seq<string>)
    requires scopes != []
    requires forall k :: 0 <= k < |scopes| ==> scopes[k] != [] && Strip(scopes[k]) == scopes[k] && ',' !in scopes[k]
    ensures GetScopes(Text(Join(",", scopes))) == scopes
  {
    var text := Join(",", scopes);
    JoinStartsWithFirst(",", scopes);
    assert text != [];
    CsvItemsJoin(scopes);
    assert GetScopes(Text(text)) == CsvItems(text);
  }

  /** With `AZURE_SCOPES` read by the configuration the scopes are never
      empty, and unset they are `["User.Read"]`. */
  lemma {:induction false} ScopesFromConfig(env: AppConfig.Environment)
    ensures GetScopes(List(AppConfig.AzureScopes(env))) != []
    ensures "AZURE_SCOPES" !in env ==> GetScopes(List(AppConfig.AzureScopes(env))) == DefaultScopes
  {
    if "AZURE_SCOPES" !in env {
      AppConfig.AzureScopesDefault(env);
    }
  }
}
