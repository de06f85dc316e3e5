/**
 * The RPC client configuration built in the root component's `config()`
 * (src/pages/_app.tsx): the base URL `getBaseUrl`, the batched endpoint URL
 * and the `enabled` policy of the logger link. The ambient inputs (whether a
 * `window` exists and the environment variables) are parameters.
 */
module TrpcConfig {
  import opened Wrappers

  const HttpsScheme := "https://"
  const ApiPath := "/api/trpc"
  const Development := "development"

  /** JavaScript truthiness of an optional string: `undefined` and `""` are falsy. */
  predicate IsTruthy(v: Option<string>)
  {
    v.Some? && |v.value| > 0
  }

  /**
   * `getBaseUrl()`: relative in a browser; on the server `https://` plus
   * `VERCEL_URL` when that is set and non-empty, else `HOST` as it is
   * (`None` when `HOST` is undefined).
   */
  function GetBaseUrl(isBrowser: bool, vercelUrl: Option<string>, host: Option<string>): Option<string>
  {
    if isBrowser then Some("")
    else if IsTruthy(vercelUrl) then Some(HttpsScheme + vercelUrl.value)
    else host
  }

  /** What a template literal makes of a value that may be `undefined`. */
  function Interpolate(v: Option<string>): string
  {
    match v
    case Some(s) => s
    case None => "undefined"
  }

  /** The endpoint `${getBaseUrl()}/api/trpc`: the base as text, then the API path. */
  function TrpcUrl(base: Option<string>): (url: string)
    ensures |url| >= |ApiPath|
    ensures url[|url| - |ApiPath|..] == ApiPath
    ensures url[..|url| - |ApiPath|] == Interpolate(base)
  {
    Interpolate(base) + ApiPath
  }

  /** Where a request goes direction-wise: out to the server or back from it. */
  datatype Direction = Up | Down

  /** What the logger link is told about one call. */
  datatype LogOpts = LogOpts(direction: Direction, resultIsError: bool)

  /**
   * The logger link's `enabled` callback: everything when `NODE_ENV` is
   * exactly `"development"`, otherwise only responses whose result is an `Error`.
   */
  function LoggingEnabled(nodeEnv: Option<string>, opts: LogOpts): bool
  {
    nodeEnv == Some(Development) || (opts.direction == Down && opts.resultIsError)
  }

  // ---------------------------------------------------------------------------
  // Properties of the base URL and the endpoint

  /** In a browser the base is relative whatever the environment says, so calls go to the same origin. */
  lemma BrowserUsesRelativeBase(vercelUrl: Option<string>, host: Option<string>)
    ensures GetBaseUrl(true, vercelUrl, host) == Some("")
    ensures TrpcUrl(GetBaseUrl(true, vercelUrl, host)) == ApiPath
  {
  }

  /** On the server a non-empty `VERCEL_URL` wins over `HOST` and gets the `https://` scheme. */
  lemma ServerPrefersVercelUrl(vercelUrl: string, host: Option<string>)
    requires |vercelUrl| > 0
    ensures GetBaseUrl(false, Some(vercelUrl), host) == Some(HttpsScheme + vercelUrl)
    ensures TrpcUrl(GetBaseUrl(false, Some(vercelUrl), host)) == "https://" + vercelUrl + "/api/trpc"
  {
  }

  /**
   * On the server without a usable `VERCEL_URL` (undefined or empty), `HOST`
   * is used verbatim: no scheme is added and an undefined `HOST` stays
   * undefined, which the template literal turns into the text `"undefined"`.
   */
  lemma ServerFallsBackToHost(vercelUrl: Option<string>, host: Option<string>)
    requires !IsTruthy(vercelUrl)
    ensures GetBaseUrl(false, vercelUrl, host) == host
    ensures host.Some? ==> TrpcUrl(GetBaseUrl(false, vercelUrl, host)) == host.value + "/api/trpc"
    ensures host.None? ==> TrpcUrl(GetBaseUrl(false, vercelUrl, host)) == "undefined/api/trpc"
  {
  }

  /**
   * The endpoint determines the base it was built from, as text: two bases
   * give the same endpoint only if they print the same.
   */
  lemma TrpcUrlDeterminesBase(a: Option<string>, b: Option<string>)
    ensures TrpcUrl(a) == TrpcUrl(b) <==> Interpolate(a) == Interpolate(b)
  {
  }

  /** Concrete base-URL scenarios, with example host names. */
  lemma ExampleBaseUrls()
    ensures GetBaseUrl(true, Some("app.example.com"), Some("tunnel.example.com")) == Some("")
    ensures GetBaseUrl(false, Some("app.example.com"), Some("tunnel.example.com")) == Some("https://app.example.com")
    ensures GetBaseUrl(false, None, Some("tunnel.example.com")) == Some("tunnel.example.com")
    ensures GetBaseUrl(false, Some(""), Some("tunnel.example.com")) == Some("tunnel.example.com")
  {
    assert HttpsScheme + "app.example.com" == "https://app.example.com";
  }

  // ---------------------------------------------------------------------------
  // Properties of the logging policy

  /** In development every call is logged, in both directions. */
  lemma DevelopmentLogsEverything(opts: LogOpts)
    ensures LoggingEnabled(Some(Development), opts)
  {
  }

  /**
   * Outside development exactly the failed responses are logged; in
   * particular no outgoing call is.
   */
  lemma OtherwiseOnlyFailedResponses(nodeEnv: Option<string>, opts: LogOpts)
    requires nodeEnv != Some(Development)
    ensures LoggingEnabled(nodeEnv, opts) <==> (opts.direction == Down && opts.resultIsError)
    ensures opts.direction == Up ==> !LoggingEnabled(nodeEnv, opts)
  {
  }

  /** The mode is compared exactly: `"production"`, `"Development"` or an unset `NODE_ENV` are not development. */
  lemma ExampleModes()
    ensures !LoggingEnabled(Some("production"), LogOpts(Up, true))
    ensures !LoggingEnabled(Some("Development"), LogOpts(Down, false))
    ensures !LoggingEnabled(None, LogOpts(Down, false))
    ensures LoggingEnabled(None, LogOpts(Down, true))
  {
  }
}
