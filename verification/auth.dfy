/**
 * auth.Service: the composition root. It owns the ordered provider registry,
 * which the Add* methods extend in place and the auth handler and Provider
 * read, and the middleware's copy of that registry.
 */
module Auth {
  import opened Results
  import opened Config
  import opened ProviderNames
  import opened Providers
  import opened GoStrings
  import opened Routes

  /** auth.Client: OAuth2 client id and secret. */
  datatype Client = Client(cid: string, csecret: string)

  /** middleware.Authenticator as auth.go fills it. */
  datatype Authenticator = Authenticator(
    validator: Option<Hook>,
    adminPasswd: string,
    basicAuthChecker: Option<Hook>,
    refreshCache: Option<Hook>,
    jwtService: TokenService,
    logger: Logger,
    providers: seq<Provider>)

  const AppleFailedPrefix: string := "an AppleProvider creating failed: "

  class Service {
    const opts: Opts
    const logger: Logger
    const jwtService: TokenService
    const avatarProxy: Option<AvatarProxy>
    const issuer: string
    const useGravatar: bool
    var providers: seq<Provider>
    var authMiddleware: Authenticator

    /**
     * The service invariant: the middleware sees the same providers, token
     * service and logger as the service, every registered name passed the name
     * check, and the defaults NewService applies are in place.
     */
    ghost predicate Valid()
      reads this
    {
      && authMiddleware.providers == providers
      && authMiddleware.jwtService == jwtService
      && authMiddleware.logger == logger
      && (forall p <- providers :: IsValidProviderName(p.Name()))
      && issuer == IssuerFor(opts.issuer)
      && logger == LoggerFor(opts.logger)
      && jwtService == TokenServiceFor(opts, issuer)
      && avatarProxy == AvatarProxyFor(opts, logger)
      && useGravatar == opts.useGravatar
    }

    /** NewService: defaults the issuer, the logger, the secret reader and the avatar route. */
    constructor NewService(opts: Opts)
      ensures Valid()
      ensures this.opts == opts && providers == []
      ensures issuer == IssuerFor(opts.issuer)
      ensures logger == LoggerFor(opts.logger)
      ensures jwtService == TokenServiceFor(opts, issuer)
      ensures avatarProxy == AvatarProxyFor(opts, logger)
      ensures authMiddleware == Authenticator(opts.validator, opts.adminPasswd, opts.basicAuthChecker,
                                              opts.refreshCache, jwtService, logger, [])
    {
      var iss := opts.issuer;
      if opts.issuer == "" {
        iss := DefaultIssuer;
      }
      var lg := NoOpLogger;
      if opts.logger.Some? {
        lg := CallerLogger(opts.logger.value);
      }
      var jwt := Config.TokenService.TokenService(
        if opts.secretReader.Some? then CallerReader(opts.secretReader.value) else MissingReader,
        opts.claimsUpd, opts.secureCookies, opts.tokenDuration, opts.cookieDuration,
        opts.disableXSRF, opts.disableIAT, opts.jwtCookieName, opts.jwtCookieDomain,
        opts.jwtHeaderKey, opts.xsrfCookieName, opts.xsrfHeaderKey, opts.xsrfIgnoreMethods,
        opts.sendJWTHeader, opts.jwtQuery, iss, opts.audienceReader, opts.audSecrets,
        opts.sameSiteCookie);
      if opts.secretReader.None? {
        jwt := jwt.(secretReader := FailingReader);
      }
      var proxy: Option<AvatarProxy> := None;
      if opts.avatarStore.Some? {
        var p := Config.AvatarProxy.AvatarProxy(opts.avatarStore.value, opts.url, opts.avatarRoutePath, opts.avatarResizeLimit, lg);
        if p.routePath == "" {
          p := p.(routePath := DefaultAvatarRoutePath);
        }
        proxy := Some(p);
      }
      this.opts := opts;
      logger := lg;
      issuer := iss;
      useGravatar := opts.useGravatar;
      jwtService := jwt;
      avatarProxy := proxy;
      providers := [];
      authMiddleware := Authenticator(opts.validator, opts.adminPasswd, opts.basicAuthChecker,
                                      opts.refreshCache, jwt, lg, []);
    }

    /** The provider.Params the Add* methods build from the service's own settings. */
    function BaseParams(): (p: Params)
      ensures p.url == opts.url && p.issuer == issuer && p.jwtService == jwtService
      ensures p.avatarSaver == avatarProxy && p.logger == logger
    {
      Params(opts.url, jwtService, issuer, avatarProxy, "", "", logger, map[], 0, "")
    }

    /**
     * addProvider: appends prov at the end when its name passes the name check
     * and leaves the registry alone otherwise; earlier entries never change and
     * the middleware is handed the new registry.
     */
    method Register(prov: Provider)
      requires Valid()
      modifies this
      ensures Valid()
      ensures providers == if IsValidProviderName(prov.Name()) then old(providers) + [prov] else old(providers)
      ensures authMiddleware == old(authMiddleware).(providers := providers)
    {
      if !IsValidProviderName(prov.Name()) {
        return;
      }
      providers := providers + [prov];
      authMiddleware := authMiddleware.(providers := providers);
    }

    /**
     * addProviderByName: registers the built-in provider the lower-cased name
     * selects, made from p; any other name leaves the registry unchanged.
     */
    method RegisterByName(name: string, p: Params)
      requires Valid()
      modifies this
      ensures Valid()
      ensures authMiddleware == old(authMiddleware).(providers := providers)
      ensures BuiltinNamed(name).None? ==> providers == old(providers)
      ensures BuiltinNamed(name).Some? ==> providers == old(providers) + [OAuth2(BuiltinNamed(name).value, p)]
    {
      var selected := BuiltinNamed(name);
      if selected.None? {
        return;
      }
      var prov := OAuth2(selected.value, p);
      FixedNameIsValid(prov);
      Register(prov);
    }

    /** AddProvider: a built-in provider by name, with an empty user-attribute mapping. */
    method AddProvider(name: string, cid: string, csecret: string)
      requires Valid()
      modifies this
      ensures Valid()
      ensures authMiddleware == old(authMiddleware).(providers := providers)
      ensures BuiltinNamed(name).None? ==> providers == old(providers)
      ensures BuiltinNamed(name).Some? ==>
        providers == old(providers) + [OAuth2(BuiltinNamed(name).value, BaseParams().(cid := cid, csecret := csecret))]
    {
      var p := BaseParams().(cid := cid, csecret := csecret, userAttributes := map[]);
      RegisterByName(name, p);
    }

    /** AddProviderWithUserAttributes: a built-in provider by name, with the given user-attribute mapping. */
    method AddProviderWithUserAttributes(name: string, cid: string, csecret: string, userAttributes: map<string, string>)
      requires Valid()
      modifies this
      ensures Valid()
      ensures authMiddleware == old(authMiddleware).(providers := providers)
      ensures BuiltinNamed(name).None? ==> providers == old(providers)
      ensures BuiltinNamed(name).Some? ==>
        providers == old(providers) +
          [OAuth2(BuiltinNamed(name).value, BaseParams().(cid := cid, csecret := csecret, userAttributes := userAttributes))]
    {
      var p := BaseParams().(cid := cid, csecret := csecret, userAttributes := userAttributes);
      RegisterByName(name, p);
    }

    /** AddDevProvider: the dev provider, listening on host and port; always registered. */
    method AddDevProvider(host: string, port: int)
      requires Valid()
      modifies this
      ensures Valid()
      ensures authMiddleware == old(authMiddleware).(providers := providers)
      ensures providers == old(providers) + [OAuth2(Dev, BaseParams().(port := port, host := host))]
    {
      var p := BaseParams().(port := port, host := host);
      var prov := OAuth2(Dev, p);
      FixedNameIsValid(prov);
      Register(prov);
    }

    /**
     * AddAppleProvider: newAppleErr is what provider.NewApple reports (it loads
     * the private key). On failure the error is wrapped and nothing is
     * registered; on success the "apple" provider is registered.
     */
    method AddAppleProvider(appleConfig: Hook, keyLoader: Hook, newAppleErr: Option<string>) returns (err: Option<string>)
      requires Valid()
      modifies this
      ensures Valid()
      ensures authMiddleware == old(authMiddleware).(providers := providers)
      ensures newAppleErr.Some? ==> err == Some(AppleFailedPrefix + newAppleErr.value) && providers == old(providers)
      ensures newAppleErr.None? ==> err == None && providers == old(providers) + [Apple(BaseParams(), appleConfig, keyLoader)]
    {
      var p := BaseParams();
      if newAppleErr.Some? {
        return Some(AppleFailedPrefix + newAppleErr.value);
      }
      var prov := Apple(p, appleConfig, keyLoader);
      FixedNameIsValid(prov);
      Register(prov);
      return None;
    }

    /** AddCustomProvider: a custom OAuth2 provider named name, registered if the name is valid. */
    method AddCustomProvider(name: string, client: Client, handlerOpts: Hook)
      requires Valid()
      modifies this
      ensures Valid()
      ensures authMiddleware == old(authMiddleware).(providers := providers)
      ensures providers == old(providers) +
        (if IsValidProviderName(name)
         then [Custom(name, BaseParams().(cid := client.cid, csecret := client.csecret), handlerOpts)]
         else [])
    {
      var p := BaseParams().(cid := client.cid, csecret := client.csecret);
      Register(Custom(name, p, handlerOpts));
    }

    /** AddDirectProvider: a direct credential-check provider named name, registered if the name is valid. */
    method AddDirectProvider(name: string, credChecker: Hook)
      requires Valid()
      modifies this
      ensures Valid()
      ensures authMiddleware == old(authMiddleware).(providers := providers)
      ensures providers == old(providers) +
        (if IsValidProviderName(name)
         then [Direct(DirectHandler(logger, name, issuer, jwtService, credChecker, avatarProxy, None))]
         else [])
    {
      Register(Direct(DirectHandler(logger, name, issuer, jwtService, credChecker, avatarProxy, None)));
    }

    /** AddDirectProviderWithUserIDFunc: as AddDirectProvider, with a user-ID function. */
    method AddDirectProviderWithUserIDFunc(name: string, credChecker: Hook, userIDFunc: Hook)
      requires Valid()
      modifies this
      ensures Valid()
      ensures authMiddleware == old(authMiddleware).(providers := providers)
      ensures providers == old(providers) +
        (if IsValidProviderName(name)
         then [Direct(DirectHandler(logger, name, issuer, jwtService, credChecker, avatarProxy, Some(userIDFunc)))]
         else [])
    {
      Register(Direct(DirectHandler(logger, name, issuer, jwtService, credChecker, avatarProxy, Some(userIDFunc))));
    }

    /** AddVerifProvider: a send-and-verify provider named name, registered if the name is valid. */
    method AddVerifProvider(name: string, msgTmpl: string, sender: Hook)
      requires Valid()
      modifies this
      ensures Valid()
      ensures authMiddleware == old(authMiddleware).(providers := providers)
      ensures providers == old(providers) +
        (if IsValidProviderName(name)
         then [Verify(VerifyHandler(logger, name, issuer, jwtService, avatarProxy, sender, msgTmpl, useGravatar))]
         else [])
    {
      Register(Verify(VerifyHandler(logger, name, issuer, jwtService, avatarProxy, sender, msgTmpl, useGravatar)));
    }

    /** AddCustomHandler: a caller-implemented provider, registered if its name is valid. */
    method AddCustomHandler(p: Provider)
      requires Valid()
      modifies this
      ensures Valid()
      ensures authMiddleware == old(authMiddleware).(providers := providers)
      ensures providers == old(providers) + (if IsValidProviderName(p.Name()) then [p] else [])
    {
      Register(p);
    }

    /**
     * Provider: the first registered provider whose name is exactly name, or
     * the error "provider <name> not found" when there is none.
     */
    method Provider(name: string) returns (r: Result<Providers.Provider>)
      ensures r.Err? <==> forall i :: 0 <= i < |providers| ==> providers[i].Name() != name
      ensures r.Err? ==> r.msg == "provider " + name + " not found"
      ensures r.Ok? ==> FirstNamed(providers, name).Some? && r.value == providers[FirstNamed(providers, name).value]
    {
      for i := 0 to |providers|
        invariant forall j :: 0 <= j < i ==> providers[j].Name() != name
      {
        if providers[i].Name() == name {
          return Ok(providers[i]);
        }
      }
      return Err("provider " + name + " not found");
    }

    /**
     * DevAuth's lookup: the dev server is built around the first provider named
     * "dev"; without one the lookup error is wrapped.
     */
    method DevAuth() returns (r: Result<Providers.Provider>)
      ensures r.Err? <==> forall i :: 0 <= i < |providers| ==> providers[i].Name() != "dev"
      ensures r.Err? ==> r.msg == "dev provider not registered: provider dev not found"
      ensures r.Ok? ==> r.value.Name() == "dev" && r.value in providers
      ensures r.Ok? ==> FirstNamed(providers, "dev").Some? && r.value == providers[FirstNamed(providers, "dev").value]
    {
      var p := Provider("dev");
      if p.Err? {
        return Err("dev provider not registered: " + p.msg);
      }
      return Ok(p.value);
    }

    /** Providers: the registry, in registration order; every name in it is valid. */
    function Providers(): (r: seq<Providers.Provider>)
      reads this
      requires Valid()
      ensures forall i :: 0 <= i < |r| ==> IsValidProviderName(r[i].Name())
      ensures r == authMiddleware.providers
    {
      providers
    }

    /** Middleware: the authenticator, which shares the registry and token service. */
    function Middleware(): (m: Authenticator)
      reads this
      requires Valid()
      ensures m.providers == providers && m.jwtService == jwtService
      ensures m.jwtService.issuer == issuer
    {
      authMiddleware
    }

    /** TokenService: the token service, whose secret reader is never missing. */
    function TokenService(): (t: Config.TokenService)
      reads this
      requires Valid()
      ensures t.issuer == issuer && !t.secretReader.MissingReader?
    {
      jwtService
    }

    /** AvatarProxy: present exactly when an avatar store is configured, with a non-empty route. */
    function AvatarProxy(): (a: Option<Config.AvatarProxy>)
      reads this
      requires Valid()
      ensures a.Some? <==> opts.avatarStore.Some?
      ensures a.Some? ==> a.value.routePath != []
    {
      avatarProxy
    }

    /**
     * The auth handler from Handlers, serving one request for path; get is what
     * jwtService.Get says about the request. It lists the providers with a loop
     * and looks the provider up with Provider.
     */
    method ServeAuth(path: string, get: GetResult) returns (o: Outcome)
      ensures o == Decide(Split(path, '/'), providers, get)
    {
      var elems := Split(path, '/');
      if |elems| < 2 {
        return BadRequest;
      }
      var last := elems[|elems| - 1];
      if last == "list" {
        var list: seq<string> := [];
        for i := 0 to |providers|
          invariant list == Names(providers[..i])
        {
          assert providers[..i + 1] == providers[..i] + [providers[i]];
          list := list + [providers[i].Name()];
        }
        assert providers[..|providers|] == providers;
        return ProviderList(list);
      }
      if last == "logout" {
        if |providers| == 0 {
          return NoProviders;
        }
        return Delegate(providers[0]);
      }
      if last == "user" {
        if get.GetErr? {
          return Unauthorized(get.msg);
        }
        if get.claims.user.None? {
          return Unauthorized(UserIsNilMsg);
        }
        return UserInfo(get.claims.user.value);
      }
      if last == "status" {
        if get.GetErr? || get.claims.user.None? {
          return NotLoggedIn;
        }
        return LoggedIn(get.claims.user.value.name);
      }
      var provName := elems[|elems| - 2];
      var p := Provider(provName);
      if p.Err? {
        return UnsupportedProvider(provName);
      }
      return Delegate(p.value);
    }
  }

  /**
   * Every provider auth.go creates under a fixed name (the built-ins and
   * Apple) passes the name check, so creating one always registers it.
   */
  lemma FixedNameIsValid(p: Provider)
    requires p.OAuth2? || p.Apple?
    ensures IsValidProviderName(p.Name())
  {
    var n := p.Name();
    assert forall i :: 0 <= i < |n| ==> 'a' <= n[i] <= 'z';
    UnreservedIsAccepted(n);
  }
}
