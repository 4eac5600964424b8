/**
 * The configuration values that auth.go wires together. Collaborators the
 * library only stores and hands on (stores, checkers, hooks, loggers) are
 * opaque handles: the model tracks which one goes where, not what it does.
 */
module Config {
  import opened Results

  /** A caller-supplied collaborator (a Go function or interface value), known only by identity. */
  datatype Hook = Hook(id: nat)

  /** The logger the service uses: the caller's, or logger.NoOp. */
  datatype Logger = NoOpLogger | CallerLogger(hook: Hook)

  /**
   * The token service's secret reader: the caller's, none at all (a nil
   * token.Secret), or the stand-in NewService installs, which fails on every call.
   */
  datatype SecretReader = CallerReader(hook: Hook) | MissingReader | FailingReader

  const NoSecretReaderMsg: string := "secrets reader not available"

  /** What a secret lookup for audience aud gives; `call` answers for the caller's reader. */
  function ReadSecret(r: SecretReader, aud: string, call: (Hook, string) -> Result<string>): (s: Result<string>)
    requires !r.MissingReader?
    ensures r.FailingReader? ==> s == Err(NoSecretReaderMsg)
  {
    match r
    case CallerReader(h) => call(h, aud)
    case FailingReader => Err(NoSecretReaderMsg)
  }

  /** auth.Opts; durations are in nanoseconds, SameSite is http.SameSite's number. */
  datatype Opts = Opts(
    secretReader: Option<Hook>,
    claimsUpd: Option<Hook>,
    secureCookies: bool,
    tokenDuration: int,
    cookieDuration: int,
    disableXSRF: bool,
    disableIAT: bool,
    jwtCookieName: string,
    jwtCookieDomain: string,
    jwtHeaderKey: string,
    xsrfCookieName: string,
    xsrfHeaderKey: string,
    xsrfIgnoreMethods: seq<string>,
    jwtQuery: string,
    sendJWTHeader: bool,
    sameSiteCookie: int,
    issuer: string,
    url: string,
    validator: Option<Hook>,
    avatarStore: Option<Hook>,
    avatarResizeLimit: int,
    avatarRoutePath: string,
    useGravatar: bool,
    adminPasswd: string,
    basicAuthChecker: Option<Hook>,
    audienceReader: Option<Hook>,
    audSecrets: bool,
    logger: Option<Hook>,
    refreshCache: Option<Hook>)

  /**
   * The token service as auth.go builds it: the token.Opts it passes to
   * token.NewService, with the secret reader as it stands afterwards.
   */
  datatype TokenService = TokenService(
    secretReader: SecretReader,
    claimsUpd: Option<Hook>,
    secureCookies: bool,
    tokenDuration: int,
    cookieDuration: int,
    disableXSRF: bool,
    disableIAT: bool,
    jwtCookieName: string,
    jwtCookieDomain: string,
    jwtHeaderKey: string,
    xsrfCookieName: string,
    xsrfHeaderKey: string,
    xsrfIgnoreMethods: seq<string>,
    sendJWTHeader: bool,
    jwtQuery: string,
    issuer: string,
    audienceReader: Option<Hook>,
    audSecrets: bool,
    sameSite: int)

  /** avatar.Proxy as NewService creates it. */
  datatype AvatarProxy = AvatarProxy(store: Hook, url: string, routePath: string, resizeLimit: int, logger: Logger)

  const DefaultIssuer: string := "go-pkgz/auth"
  const DefaultAvatarRoutePath: string := "/avatar"

  /** The issuer of the service's tokens: the configured one, or "go-pkgz/auth" when none is. */
  function IssuerFor(configured: string): (r: string)
    ensures r != []
    ensures configured != [] ==> r == configured
    ensures configured == [] ==> r == DefaultIssuer
  {
    if configured == [] then DefaultIssuer else configured
  }

  /** The logger in use: the caller's, or the no-op logger when none is given. */
  function LoggerFor(configured: Option<Hook>): (r: Logger)
    ensures r.CallerLogger? <==> configured.Some?
    ensures configured.Some? ==> r.hook == configured.value
  {
    if configured.None? then NoOpLogger else CallerLogger(configured.value)
  }

  /**
   * The token service NewService ends with: every token option taken from
   * opts, the issuer from the service, and a reader that is never missing.
   */
  function TokenServiceFor(opts: Opts, issuer: string): (r: TokenService)
    ensures r.issuer == issuer
    ensures !r.secretReader.MissingReader?
    ensures opts.secretReader.Some? <==> r.secretReader.CallerReader?
    ensures opts.secretReader.Some? ==> r.secretReader.hook == opts.secretReader.value
    ensures r.claimsUpd == opts.claimsUpd && r.secureCookies == opts.secureCookies
    ensures r.tokenDuration == opts.tokenDuration && r.cookieDuration == opts.cookieDuration
    ensures r.disableXSRF == opts.disableXSRF && r.disableIAT == opts.disableIAT
    ensures r.jwtCookieName == opts.jwtCookieName && r.jwtCookieDomain == opts.jwtCookieDomain
    ensures r.jwtHeaderKey == opts.jwtHeaderKey
    ensures r.xsrfCookieName == opts.xsrfCookieName && r.xsrfHeaderKey == opts.xsrfHeaderKey
    ensures r.xsrfIgnoreMethods == opts.xsrfIgnoreMethods
    ensures r.jwtQuery == opts.jwtQuery && r.sendJWTHeader == opts.sendJWTHeader
    ensures r.audienceReader == opts.audienceReader && r.audSecrets == opts.audSecrets
    ensures r.sameSite == opts.sameSiteCookie
  {
    TokenService(
      if opts.secretReader.None? then FailingReader else CallerReader(opts.secretReader.value),
      opts.claimsUpd, opts.secureCookies, opts.tokenDuration, opts.cookieDuration,
      opts.disableXSRF, opts.disableIAT, opts.jwtCookieName, opts.jwtCookieDomain,
      opts.jwtHeaderKey, opts.xsrfCookieName, opts.xsrfHeaderKey, opts.xsrfIgnoreMethods,
      opts.sendJWTHeader, opts.jwtQuery, issuer, opts.audienceReader, opts.audSecrets,
      opts.sameSiteCookie)
  }

  /**
   * The avatar proxy: there is one exactly when an avatar store is configured,
   * it serves under the configured route path, or "/avatar" when that is empty.
   */
  function AvatarProxyFor(opts: Opts, logger: Logger): (r: Option<AvatarProxy>)
    ensures r.Some? <==> opts.avatarStore.Some?
    ensures r.Some? ==> r.value.store == opts.avatarStore.value && r.value.routePath != []
    ensures r.Some? && opts.avatarRoutePath != [] ==> r.value.routePath == opts.avatarRoutePath
    ensures r.Some? && opts.avatarRoutePath == [] ==> r.value.routePath == DefaultAvatarRoutePath
    ensures r.Some? ==> r.value.resizeLimit == opts.avatarResizeLimit
    ensures r.Some? ==> r.value.url == opts.url && r.value.logger == logger
  {
    if opts.avatarStore.None? then None
    else
      var path := if opts.avatarRoutePath == [] then DefaultAvatarRoutePath else opts.avatarRoutePath;
      Some(AvatarProxy(opts.avatarStore.value, opts.url, path, opts.avatarResizeLimit, logger))
  }
}
