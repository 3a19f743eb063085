/** The front end's API settings: one entry per deployment environment,
    the choice of environment from the build variables, and the joining of
    the base URL with an endpoint path. */
module ApiConfig {
  import opened Wrappers

  datatype Config = Config(baseUrl: string, timeout: nat, retries: nat)

  /** The build variables the choice reads: `VITE_ENV` (absent or a string)
      and the dev-server flag `DEV`. */
  datatype BuildEnv = BuildEnv(viteEnv: Option<string>, dev: bool)

  const DEVELOPMENT := Config("/api", 10000, 3)
  const PRODUCTION := Config("http://pleibx.com:3001/api", 15000, 2)
  const STAGING := Config("https://glfstat.pleibx.com/api", 12000, 3)

  /** The configuration table, by environment name. */
  const API_CONFIG: map<string, Config> :=
    map["development" := DEVELOPMENT, "production" := PRODUCTION, "staging" := STAGING]

  /** `getEnvironment()`: a non-empty `VITE_ENV` wins, then the dev server
      means development, otherwise production. */
  function GetEnvironment(env: BuildEnv): (name: string)
    ensures env.viteEnv.Some? && env.viteEnv.value != "" ==> name == env.viteEnv.value
    ensures (env.viteEnv.None? || env.viteEnv.value == "") && env.dev ==> name == "development"
    ensures (env.viteEnv.None? || env.viteEnv.value == "") && !env.dev ==> name == "production"
  {
    if env.viteEnv.Some? && env.viteEnv.value != "" then env.viteEnv.value
    else if env.dev then "development"
    else "production"
  }

  /** `getApiConfig()`: the entry of the chosen environment, or the
      production entry for a name the table does not have. */
  function GetApiConfig(env: BuildEnv): (c: Config)
    ensures GetEnvironment(env) in API_CONFIG ==> c == API_CONFIG[GetEnvironment(env)]
    ensures GetEnvironment(env) !in API_CONFIG ==> c == PRODUCTION
    ensures c in API_CONFIG.Values
  {
    var name := GetEnvironment(env);
    assert API_CONFIG["production"] == PRODUCTION;
    if name in API_CONFIG then API_CONFIG[name] else PRODUCTION
  }

  /** Which configuration each build gets: the three named environments
      their own entry, a dev build without `VITE_ENV` the development entry,
      and anything else production. */
  lemma ConfigChoice(env: BuildEnv)
    ensures env.viteEnv == Some("staging") ==> GetApiConfig(env) == STAGING
    ensures env.viteEnv == Some("development") ==> GetApiConfig(env) == DEVELOPMENT
    ensures env.viteEnv == Some("production") ==> GetApiConfig(env) == PRODUCTION
    ensures (env.viteEnv.None? || env.viteEnv == Some("")) && env.dev ==> GetApiConfig(env) == DEVELOPMENT
    ensures (env.viteEnv.None? || env.viteEnv == Some("")) && !env.dev ==> GetApiConfig(env) == PRODUCTION
    ensures env.viteEnv.Some? && env.viteEnv.value !in {"", "development", "production", "staging"} ==>
      GetApiConfig(env) == PRODUCTION
  {
  }

  predicate EndsWithSlash(s: string) {
    |s| > 0 && s[|s| - 1] == '/'
  }

  predicate StartsWithSlash(s: string) {
    |s| > 0 && s[0] == '/'
  }

  /** The base with one trailing slash, if any, removed. */
  function TrimBase(base: string): (b: string)
    ensures EndsWithSlash(base) ==> b == base[..|base| - 1]
    ensures !EndsWithSlash(base) ==> b == base
  {
    if EndsWithSlash(base) then base[..|base| - 1] else base
  }

  /** The endpoint with a leading slash, added if missing. */
  function AsPath(endpoint: string): (p: string)
    ensures StartsWithSlash(p)
    ensures StartsWithSlash(endpoint) ==> p == endpoint
    ensures !StartsWithSlash(endpoint) ==> p == "/" + endpoint
  {
    if StartsWithSlash(endpoint) then endpoint else "/" + endpoint
  }

  /** The joining rule of `buildApiUrl` for any base. */
  function JoinUrl(base: string, endpoint: string): string
  {
    TrimBase(base) + AsPath(endpoint)
  }

  /** `buildApiUrl(endpoint)` against the base URL of the build's configuration. */
  function BuildApiUrl(env: BuildEnv, endpoint: string): (url: string)
    ensures url == GetApiConfig(env).baseUrl + AsPath(endpoint)
  {
    var base := GetApiConfig(env).baseUrl;
    assert !EndsWithSlash(base) by {
      assert base == DEVELOPMENT.baseUrl || base == PRODUCTION.baseUrl || base == STAGING.baseUrl;
    }
    JoinUrl(base, endpoint)
  }

  /** The joined URL is the base, less at most one trailing slash, followed
      by the endpoint, which is prefixed with a slash exactly when it lacks one;
      with neither adjustment needed it is plain concatenation. */
  lemma JoinUrlSpec(base: string, endpoint: string)
    ensures var url := JoinUrl(base, endpoint);
      && |url| == |base| - (if EndsWithSlash(base) then 1 else 0) + |endpoint| + (if StartsWithSlash(endpoint) then 0 else 1)
      && url[..|TrimBase(base)|] == base[..|TrimBase(base)|]
      && url[|TrimBase(base)|] == '/'
      && url[|url| - |endpoint|..] == endpoint
    ensures !EndsWithSlash(base) && StartsWithSlash(endpoint) ==> JoinUrl(base, endpoint) == base + endpoint
  {
    var url := JoinUrl(base, endpoint);
    var b := TrimBase(base);
    assert url[..|b|] == b;
    assert url[|b|..] == AsPath(endpoint);
    if !StartsWithSlash(endpoint) {
      assert AsPath(endpoint)[1..] == endpoint;
    }
  }

  /** The leading slash of an endpoint is optional: with or without it the same URL results. */
  lemma LeadingSlashOptional(base: string, endpoint: string)
    requires !StartsWithSlash(endpoint)
    ensures JoinUrl(base, "/" + endpoint) == JoinUrl(base, endpoint)
  {
  }

  /** No configured base URL ends in a slash, so for a slash-prefixed
      endpoint the URL is the base followed by the endpoint. */
  lemma BuildApiUrlConcatenates(env: BuildEnv, endpoint: string)
    requires StartsWithSlash(endpoint)
    ensures BuildApiUrl(env, endpoint) == GetApiConfig(env).baseUrl + endpoint
  {
    var base := GetApiConfig(env).baseUrl;
    assert base == DEVELOPMENT.baseUrl || base == PRODUCTION.baseUrl || base == STAGING.baseUrl;
    assert !EndsWithSlash(base);
  }
}
