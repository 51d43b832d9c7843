/**
 * Credential resolution for one request: every security scheme the spec
 * declares is given its credential from a precedence chain (command-line
 * option, then process environment, then the API's `.env` file), and two
 * command-line fallbacks are applied after the schemes.
 *
 * The process environment and the `.env` file are maps passed in with the
 * command-line options (`Sources`); base64 is a function passed in.
 * `ResolveAuthSpec` is the result as a function of its inputs; the method
 * `ResolveAuth` fills the header and query dicts scheme by scheme, as the
 * source does, and is proved to build exactly that.
 */
module Auth {
  import opened Wrappers
  import opened Strings
  import opened OrderedDict
  import opened SpecModel

  /** The credentials to put on a request: extra headers and extra query parameters. */
  datatype ResolvedAuth = ResolvedAuth(headers: Dict<string>, queryParams: Dict<string>)

  const NoAuth: ResolvedAuth := ResolvedAuth([], [])

  /**
   * Everything a credential can come from besides the spec: the four
   * command-line options, the process environment, the `.env` file of the
   * API, and the base64 encoder.
   */
  datatype Sources = Sources(
    cliToken: Option<string>,
    cliApiKey: Option<string>,
    cliUsername: Option<string>,
    cliPassword: Option<string>,
    environ: map<string, string>,
    dotenv: map<string, string>,
    b64: string -> string)

  function Lookup(m: map<string, string>, k: string): (r: Option<string>)
    ensures r.Some? <==> k in m
  {
    if k in m then Some(m[k]) else None
  }

  /** Python truthiness of a `str | None`: present and not empty. */
  predicate Given(o: Option<string>) {
    o.Some? && o.value != ""
  }

  /**
   * A precedence chain `a or b or ...` whose result is then tested for
   * truthiness: the first link that is given, and nothing when none is.
   */
  function FirstGiven(chain: seq<Option<string>>): (r: Option<string>)
    ensures r.None? <==> forall i :: 0 <= i < |chain| ==> !Given(chain[i])
    ensures r.Some? ==> (Given(r) &&
      exists i :: 0 <= i < |chain| && chain[i] == r && forall j :: 0 <= j < i ==> !Given(chain[j]))
  {
    if |chain| == 0 then None
    else if Given(chain[0]) then chain[0]
    else
      var r := FirstGiven(chain[1..]);
      assert r.Some? ==> exists i :: 0 <= i < |chain| && chain[i] == r && forall j :: 0 <= j < i ==> !Given(chain[j]) by {
        if r.Some? {
          var i :| 0 <= i < |chain[1..]| && chain[1..][i] == r && forall j :: 0 <= j < i ==> !Given(chain[1..][j]);
          assert chain[i + 1] == r;
          assert forall j :: 0 <= j < i + 1 ==> !Given(chain[j]) by {
            forall j | 0 <= j < i + 1
              ensures !Given(chain[j])
            {
              if j > 0 {
                assert chain[j] == chain[1..][j - 1];
              }
            }
          }
        }
      }
      r
  }

  /** `x or ""`. */
  function OrEmpty(o: Option<string>): string {
    if o.Some? then o.value else ""
  }

  const BearerEnv := "CLIFORAPI_BEARER_TOKEN"

  /** The bearer chain: option, environment, `.env` `BEARER_TOKEN`, `.env` `OAUTH_TOKEN`. */
  function BearerChain(src: Sources): seq<Option<string>> {
    [src.cliToken, Lookup(src.environ, BearerEnv), Lookup(src.dotenv, "BEARER_TOKEN"), Lookup(src.dotenv, "OAUTH_TOKEN")]
  }

  /** The OAuth2 chain: as the bearer chain, but `.env` `OAUTH_TOKEN` before `BEARER_TOKEN`. */
  function OAuthChain(src: Sources): seq<Option<string>> {
    [src.cliToken, Lookup(src.environ, BearerEnv), Lookup(src.dotenv, "OAUTH_TOKEN"), Lookup(src.dotenv, "BEARER_TOKEN")]
  }

  function UsernameChain(src: Sources): seq<Option<string>> {
    [src.cliUsername, Lookup(src.environ, "CLIFORAPI_BASIC_USERNAME"), Lookup(src.dotenv, "BASIC_USERNAME")]
  }

  function PasswordChain(src: Sources): seq<Option<string>> {
    [src.cliPassword, Lookup(src.environ, "CLIFORAPI_BASIC_PASSWORD"), Lookup(src.dotenv, "BASIC_PASSWORD")]
  }

  /** The header or query parameter an API key is sent as: the scheme's name, `api_key` when it has none. */
  function ApiKeyName(s: SecurityScheme): string {
    if Given(s.name) then s.name.value else "api_key"
  }

  /** The `.env` key of an API key: `API_KEY_` and the upper-cased parameter name. */
  function ApiKeyEnvKey(param: string): string {
    "API_KEY_" + Upper(param)
  }

  /** The API-key chain: option, environment `CLIFORAPI_API_KEY_<NAME>`, `.env` `API_KEY_<NAME>`. */
  function ApiKeyChain(src: Sources, param: string): seq<Option<string>> {
    [src.cliApiKey, Lookup(src.environ, "CLIFORAPI_" + ApiKeyEnvKey(param)), Lookup(src.dotenv, ApiKeyEnvKey(param))]
  }

  predicate IsBearer(s: SecurityScheme) {
    s.kind == "http" && s.scheme == Some("bearer")
  }

  predicate IsBasic(s: SecurityScheme) {
    s.kind == "http" && s.scheme == Some("basic")
  }

  /** What one security scheme adds to the credentials built so far. */
  function ApplyScheme(a: ResolvedAuth, s: SecurityScheme, src: Sources): ResolvedAuth {
    if IsBearer(s) then
      match FirstGiven(BearerChain(src))
      case Some(t) => a.(headers := Put(a.headers, "Authorization", "Bearer " + t))
      case None => a
    else if IsBasic(s) then
      var user := OrEmpty(FirstGiven(UsernameChain(src)));
      var pass := OrEmpty(FirstGiven(PasswordChain(src)));
      if user != "" then a.(headers := Put(a.headers, "Authorization", "Basic " + src.b64(user + ":" + pass)))
      else a
    else if s.kind == "apiKey" then
      var param := ApiKeyName(s);
      match FirstGiven(ApiKeyChain(src, param))
      case Some(v) =>
        if s.location == Some("header") then a.(headers := Put(a.headers, param, v))
        else if s.location == Some("query") then a.(queryParams := Put(a.queryParams, param, v))
        else a
      case None => a
    else if s.kind == "oauth2" then
      match FirstGiven(OAuthChain(src))
      case Some(t) => a.(headers := Put(a.headers, "Authorization", "Bearer " + t))
      case None => a
    else a
  }

  /** The credentials after the schemes `schemes`, in declaration order. */
  function ApplySchemes(schemes: Dict<SecurityScheme>, src: Sources): ResolvedAuth {
    if |schemes| == 0 then NoAuth
    else ApplyScheme(ApplySchemes(schemes[..|schemes| - 1], src), schemes[|schemes| - 1].1, src)
  }

  /** With no `Authorization` header yet, a bearer token from the option or the environment still applies. */
  function BearerFallback(a: ResolvedAuth, src: Sources): ResolvedAuth {
    if "Authorization" in Keys(a.headers) then a
    else
      match FirstGiven([src.cliToken, Lookup(src.environ, BearerEnv)])
      case Some(t) => a.(headers := Put(a.headers, "Authorization", "Bearer " + t))
      case None => a
  }

  /** Some header carries the value `v`. */
  predicate HasValue(d: Dict<string>, v: string) {
    exists i :: 0 <= i < |d| && d[i].1 == v
  }

  /** An API key given as an option that no header carries yet is sent as a bearer token. */
  function ApiKeyOverride(a: ResolvedAuth, src: Sources): ResolvedAuth {
    if Given(src.cliApiKey) && !HasValue(a.headers, src.cliApiKey.value) then
      a.(headers := Put(a.headers, "Authorization", "Bearer " + src.cliApiKey.value))
    else a
  }

  function ResolveAuthSpec(schemes: Dict<SecurityScheme>, src: Sources): ResolvedAuth {
    ApiKeyOverride(BearerFallback(ApplySchemes(schemes, src), src), src)
  }

  /** One turn of the loop over the schemes in `resolve_auth`. */
  method ApplySchemeStep(headers: Dict<string>, queryParams: Dict<string>, scheme: SecurityScheme, src: Sources)
    returns (headers': Dict<string>, queryParams': Dict<string>)
    ensures ResolvedAuth(headers', queryParams') == ApplyScheme(ResolvedAuth(headers, queryParams), scheme, src)
  {
    headers', queryParams' := headers, queryParams;
    if IsBearer(scheme) {
      var token := FirstGiven(BearerChain(src));
      if token.Some? {
        headers' := Put(headers, "Authorization", "Bearer " + token.value);
      }
    } else if IsBasic(scheme) {
      var username := OrEmpty(FirstGiven(UsernameChain(src)));
      var password := OrEmpty(FirstGiven(PasswordChain(src)));
      if username != "" {
        var encoded := src.b64(username + ":" + password);
        headers' := Put(headers, "Authorization", "Basic " + encoded);
      }
    } else if scheme.kind == "apiKey" {
      var param := ApiKeyName(scheme);
      var value := FirstGiven(ApiKeyChain(src, param));
      if value.Some? {
        if scheme.location == Some("header") {
          headers' := Put(headers, param, value.value);
        } else if scheme.location == Some("query") {
          queryParams' := Put(queryParams, param, value.value);
        }
      }
    } else if scheme.kind == "oauth2" {
      var token := FirstGiven(OAuthChain(src));
      if token.Some? {
        headers' := Put(headers, "Authorization", "Bearer " + token.value);
      }
    }
  }

  /** `resolve_auth`. */
  method ResolveAuth(spec: ApiSpec, src: Sources) returns (auth: ResolvedAuth)
    ensures auth == ResolveAuthSpec(spec.securitySchemes, src)
  {
    var schemes := spec.securitySchemes;
    var headers: Dict<string> := [];
    var queryParams: Dict<string> := [];
    for i := 0 to |schemes|
      invariant ResolvedAuth(headers, queryParams) == ApplySchemes(schemes[..i], src)
    {
      assert schemes[..i + 1][..i] == schemes[..i];
      headers, queryParams := ApplySchemeStep(headers, queryParams, schemes[i].1, src);
    }
    assert schemes[..|schemes|] == schemes;
    if "Authorization" !in Keys(headers) {
      var token := FirstGiven([src.cliToken, Lookup(src.environ, BearerEnv)]);
      if token.Some? {
        headers := Put(headers, "Authorization", "Bearer " + token.value);
      }
    }
    if Given(src.cliApiKey) && !HasValue(headers, src.cliApiKey.value) {
      headers := Put(headers, "Authorization", "Bearer " + src.cliApiKey.value);
    }
    auth := ResolvedAuth(headers, queryParams);
  }

  // ---------------------------------------------------------------------
  // Properties
  // ---------------------------------------------------------------------

  /** The `.env` order is the one difference between the bearer and the OAuth2 chains. */
  lemma DotenvOrder(src: Sources)
    requires !Given(src.cliToken) && !Given(Lookup(src.environ, BearerEnv))
    requires Given(Lookup(src.dotenv, "BEARER_TOKEN")) && Given(Lookup(src.dotenv, "OAUTH_TOKEN"))
    ensures FirstGiven(BearerChain(src)) == Some(src.dotenv["BEARER_TOKEN"])
    ensures FirstGiven(OAuthChain(src)) == Some(src.dotenv["OAUTH_TOKEN"])
  {
    var b := BearerChain(src);
    assert FirstGiven(b) == FirstGiven(b[1..]) == FirstGiven(b[1..][1..]);
    assert b[1..][1..][0] == Some(src.dotenv["BEARER_TOKEN"]);
    var o := OAuthChain(src);
    assert FirstGiven(o) == FirstGiven(o[1..]) == FirstGiven(o[1..][1..]);
    assert o[1..][1..][0] == Some(src.dotenv["OAUTH_TOKEN"]);
  }

  /**
   * One scheme touches one entry: `Authorization` for bearer, basic and
   * OAuth2, the key's own name for an API key (in the headers or in the query
   * parameters), and nothing for any other scheme.
   */
  lemma SchemeTouchesOneEntry(a: ResolvedAuth, s: SecurityScheme, src: Sources, k: string)
    ensures var b := ApplyScheme(a, s, src);
      var touched := if s.kind == "apiKey" then ApiKeyName(s) else "Authorization";
      && (k != touched ==> Get(b.headers, k) == Get(a.headers, k) && Get(b.queryParams, k) == Get(a.queryParams, k))
      && (s.kind != "apiKey" || s.location != Some("query") ==> b.queryParams == a.queryParams)
      && (s.kind == "apiKey" && s.location != Some("header") ==> b.headers == a.headers)
      && (!IsBearer(s) && !IsBasic(s) && s.kind != "apiKey" && s.kind != "oauth2" ==> b == a)
  {
  }

  /** A basic scheme without a user name adds nothing; with one, it sends `Basic` and the encoded `user:password`. */
  lemma BasicNeedsUsername(a: ResolvedAuth, s: SecurityScheme, src: Sources)
    requires IsBasic(s)
    ensures FirstGiven(UsernameChain(src)).None? ==> ApplyScheme(a, s, src) == a
    ensures FirstGiven(UsernameChain(src)).Some? ==>
      Get(ApplyScheme(a, s, src).headers, "Authorization") ==
        Some("Basic " + src.b64(FirstGiven(UsernameChain(src)).value + ":" + OrEmpty(FirstGiven(PasswordChain(src)))))
  {
  }

  /** An `Authorization` header that is absent or carries `token` as a bearer token. */
  predicate BearerOrAbsent(headers: Dict<string>, token: string) {
    var auth := Get(headers, "Authorization");
    auth.None? || auth == Some("Bearer " + token)
  }

  /** No scheme can set `Authorization` to anything but a bearer token. */
  predicate NoOtherAuthorization(schemes: Dict<SecurityScheme>) {
    forall i :: 0 <= i < |schemes| ==>
      !IsBasic(schemes[i].1) && (schemes[i].1.kind == "apiKey" ==> ApiKeyName(schemes[i].1) != "Authorization")
  }

  lemma {:induction false} SchemesKeepCliToken(schemes: Dict<SecurityScheme>, src: Sources)
    requires Given(src.cliToken) && NoOtherAuthorization(schemes)
    ensures BearerOrAbsent(ApplySchemes(schemes, src).headers, src.cliToken.value)
    decreases |schemes|
  {
    if |schemes| > 0 {
      var init := schemes[..|schemes| - 1];
      assert NoOtherAuthorization(init) by {
        forall i | 0 <= i < |init|
          ensures !IsBasic(init[i].1) && (init[i].1.kind == "apiKey" ==> ApiKeyName(init[i].1) != "Authorization")
        {
          assert init[i] == schemes[i];
        }
      }
      SchemesKeepCliToken(init, src);
      var a := ApplySchemes(init, src);
      var s := schemes[|schemes| - 1].1;
      assert !IsBasic(s) && (s.kind == "apiKey" ==> ApiKeyName(s) != "Authorization");
      assert FirstGiven(BearerChain(src)) == src.cliToken;
      assert FirstGiven(OAuthChain(src)) == src.cliToken;
      SchemeTouchesOneEntry(a, s, src, "Authorization");
    }
  }

  /**
   * A token given on the command line is what `Authorization` carries, unless
   * a basic scheme or an API key sent as `Authorization` takes its place, or
   * an API key option overrides it.
   */
  lemma CliTokenWins(schemes: Dict<SecurityScheme>, src: Sources)
    requires Given(src.cliToken) && !Given(src.cliApiKey)
    requires NoOtherAuthorization(schemes)
    ensures Get(ResolveAuthSpec(schemes, src).headers, "Authorization") == Some("Bearer " + src.cliToken.value)
  {
    SchemesKeepCliToken(schemes, src);
  }

  /** An API key given on the command line is always sent: as some header's value, or as the bearer token. */
  lemma CliApiKeySent(schemes: Dict<SecurityScheme>, src: Sources)
    requires Given(src.cliApiKey)
    ensures var h := ResolveAuthSpec(schemes, src).headers;
      HasValue(h, src.cliApiKey.value) || Get(h, "Authorization") == Some("Bearer " + src.cliApiKey.value)
  {
  }

  /** Without schemes and without a token or key on the command line or in the environment, nothing is added. */
  lemma NoCredentialsNoAuth(src: Sources)
    requires !Given(src.cliToken) && !Given(Lookup(src.environ, BearerEnv)) && !Given(src.cliApiKey)
    ensures ResolveAuthSpec([], src) == NoAuth
  {
  }

  /** A query parameter is only ever added by an API-key scheme located in the query, under its name. */
  lemma {:induction false} QueryOnlyFromApiKeys(schemes: Dict<SecurityScheme>, src: Sources, k: string)
    requires k in Keys(ResolveAuthSpec(schemes, src).queryParams)
    ensures exists i :: (0 <= i < |schemes| &&
      schemes[i].1.kind == "apiKey" && schemes[i].1.location == Some("query") && ApiKeyName(schemes[i].1) == k)
  {
    SchemesQuery(schemes, src, k);
  }

  lemma {:induction false} SchemesQuery(schemes: Dict<SecurityScheme>, src: Sources, k: string)
    requires k in Keys(ApplySchemes(schemes, src).queryParams)
    ensures exists i :: (0 <= i < |schemes| &&
      schemes[i].1.kind == "apiKey" && schemes[i].1.location == Some("query") && ApiKeyName(schemes[i].1) == k)
    decreases |schemes|
  {
    var init := schemes[..|schemes| - 1];
    var s := schemes[|schemes| - 1].1;
    var a := ApplySchemes(init, src);
    if s.kind == "apiKey" && s.location == Some("query") && ApiKeyName(s) == k {
    } else {
      SchemeTouchesOneEntry(a, s, src, k);
      assert k in Keys(a.queryParams);
      SchemesQuery(init, src, k);
      var i :| 0 <= i < |init| && init[i].1.kind == "apiKey" && init[i].1.location == Some("query") && ApiKeyName(init[i].1) == k;
      assert schemes[i] == init[i];
    }
  }

  // ---------------------------------------------------------------------
  // An empty string counts as absent
  // ---------------------------------------------------------------------

  /** A source that is empty read as no source at all. */
  function Drop(o: Option<string>): Option<string> {
    if Given(o) then o else None
  }

  function DropEmpty(m: map<string, string>): map<string, string> {
    map k | k in m && m[k] != "" :: m[k]
  }

  /** The same sources with every empty option and every empty variable removed. */
  function Normalized(src: Sources): Sources {
    src.(cliToken := Drop(src.cliToken), cliApiKey := Drop(src.cliApiKey),
         cliUsername := Drop(src.cliUsername), cliPassword := Drop(src.cliPassword),
         environ := DropEmpty(src.environ), dotenv := DropEmpty(src.dotenv))
  }

  /** Every link of a chain with its empty value dropped. */
  function DropAll(chain: seq<Option<string>>): seq<Option<string>> {
    seq(|chain|, i requires 0 <= i < |chain| => Drop(chain[i]))
  }

  lemma {:induction false} FirstGivenDrop(chain: seq<Option<string>>)
    ensures FirstGiven(DropAll(chain)) == FirstGiven(chain)
    decreases |chain|
  {
    if |chain| > 0 {
      FirstGivenDrop(chain[1..]);
      assert DropAll(chain)[1..] == DropAll(chain[1..]);
    }
  }

  lemma LookupDrop(m: map<string, string>, k: string)
    ensures Lookup(DropEmpty(m), k) == Drop(Lookup(m, k))
  {
  }

  lemma BearerChainDrop(src: Sources)
    ensures FirstGiven(BearerChain(Normalized(src))) == FirstGiven(BearerChain(src))
  {
    LookupDrop(src.environ, BearerEnv);
    LookupDrop(src.dotenv, "BEARER_TOKEN");
    LookupDrop(src.dotenv, "OAUTH_TOKEN");
    assert BearerChain(Normalized(src)) == DropAll(BearerChain(src));
    FirstGivenDrop(BearerChain(src));
  }

  lemma OAuthChainDrop(src: Sources)
    ensures FirstGiven(OAuthChain(Normalized(src))) == FirstGiven(OAuthChain(src))
  {
    LookupDrop(src.environ, BearerEnv);
    LookupDrop(src.dotenv, "BEARER_TOKEN");
    LookupDrop(src.dotenv, "OAUTH_TOKEN");
    assert OAuthChain(Normalized(src)) == DropAll(OAuthChain(src));
    FirstGivenDrop(OAuthChain(src));
  }

  lemma FallbackChainDrop(src: Sources)
    ensures FirstGiven([Normalized(src).cliToken, Lookup(Normalized(src).environ, BearerEnv)]) ==
      FirstGiven([src.cliToken, Lookup(src.environ, BearerEnv)])
  {
    LookupDrop(src.environ, BearerEnv);
    var c := [src.cliToken, Lookup(src.environ, BearerEnv)];
    assert [Normalized(src).cliToken, Lookup(Normalized(src).environ, BearerEnv)] == DropAll(c);
    FirstGivenDrop(c);
  }

  lemma UsernameChainDrop(src: Sources)
    ensures FirstGiven(UsernameChain(Normalized(src))) == FirstGiven(UsernameChain(src))
  {
    LookupDrop(src.environ, "CLIFORAPI_BASIC_USERNAME");
    LookupDrop(src.dotenv, "BASIC_USERNAME");
    assert UsernameChain(Normalized(src)) == DropAll(UsernameChain(src));
    FirstGivenDrop(UsernameChain(src));
  }

  lemma PasswordChainDrop(src: Sources)
    ensures FirstGiven(PasswordChain(Normalized(src))) == FirstGiven(PasswordChain(src))
  {
    LookupDrop(src.environ, "CLIFORAPI_BASIC_PASSWORD");
    LookupDrop(src.dotenv, "BASIC_PASSWORD");
    assert PasswordChain(Normalized(src)) == DropAll(PasswordChain(src));
    FirstGivenDrop(PasswordChain(src));
  }

  lemma ApiKeyChainDrop(src: Sources, param: string)
    ensures FirstGiven(ApiKeyChain(Normalized(src), param)) == FirstGiven(ApiKeyChain(src, param))
  {
    LookupDrop(src.environ, "CLIFORAPI_" + ApiKeyEnvKey(param));
    LookupDrop(src.dotenv, ApiKeyEnvKey(param));
    assert ApiKeyChain(Normalized(src), param) == DropAll(ApiKeyChain(src, param));
    FirstGivenDrop(ApiKeyChain(src, param));
  }

  lemma SchemeDrop(a: ResolvedAuth, s: SecurityScheme, src: Sources)
    ensures ApplyScheme(a, s, src) == ApplyScheme(a, s, Normalized(src))
  {
    if IsBearer(s) {
      BearerChainDrop(src);
    } else if IsBasic(s) {
      UsernameChainDrop(src);
      PasswordChainDrop(src);
    } else if s.kind == "apiKey" {
      ApiKeyChainDrop(src, ApiKeyName(s));
    } else if s.kind == "oauth2" {
      OAuthChainDrop(src);
    }
  }

  lemma {:induction false} SchemesDrop(schemes: Dict<SecurityScheme>, src: Sources)
    ensures ApplySchemes(schemes, src) == ApplySchemes(schemes, Normalized(src))
    decreases |schemes|
  {
    if |schemes| > 0 {
      SchemesDrop(schemes[..|schemes| - 1], src);
      SchemeDrop(ApplySchemes(schemes[..|schemes| - 1], src), schemes[|schemes| - 1].1, src);
    }
  }

  /**
   * An empty option, environment variable or `.env` entry behaves exactly as
   * if it were not there, at every link of every chain.
   */
  lemma EmptyIsAbsent(schemes: Dict<SecurityScheme>, src: Sources)
    ensures ResolveAuthSpec(schemes, src) == ResolveAuthSpec(schemes, Normalized(src))
  {
    SchemesDrop(schemes, src);
    FallbackChainDrop(src);
  }
}
