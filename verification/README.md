# go-pkgz/auth v2: the composition root (auth.go)

A Dafny model of `auth.go`, the file that wires the go-pkgz/auth library together:

- **NewService** builds the service from `Opts` and fills in defaults: the issuer
  `"go-pkgz/auth"`, the no-op logger, a secret reader that always fails when none is
  given, and the avatar proxy (only when an avatar store is set) under `"/avatar"` unless
  another route is configured.
- **The provider registry** is an ordered list on the service (a Dafny `class Service`
  with a `providers` field reassigned in place). Every `Add*` method builds a provider and
  hands it to `addProvider` (here `Register`). That method appends it when its name passes
  `isValidProviderName` and otherwise changes nothing. It also gives the middleware the new
  list. `addProviderByName` (here `RegisterByName`) picks a built-in provider from the
  lower-cased name and ignores any other name. `Provider(name)` returns the first entry with
  exactly that name.
- **The provider-name check** rejects blank names, names that URL path unescaping or escaping
  would change, and names with an RFC 3986 reserved character (section 2.2). Together these
  accept exactly the non-empty names built from the unreserved characters of section 2.3
  (letters, digits, `-`, `.`, `_`, `~`). `ProviderNames.ValidNameIff` proves this.
  Such a name is always one segment of a route path.
- **The auth handler** (the closure made by `Handlers`) splits the request path on `/`.
  It answers `list`, `logout`, `user` and `status` itself. Any other last segment goes to
  the provider named by the segment before it. `Routes.Decide` states the decision as a
  function. `Service.ServeAuth` computes it the way the source does, with the list-building
  loop and the `Provider` lookup.

Go library code that the checks depend on is modelled from how it behaves:
`url.PathEscape`/`url.PathUnescape` (path-segment mode, on the UTF-8 bytes of the name),
`strings.TrimSpace`, `strings.ToLower` and `strings.Split`. The `regexp` character class
is modelled as membership in a character set. Collaborators that auth.go only stores and
passes on (stores, checkers, hooks, loggers, the Apple key loader) are opaque `Hook`
handles. The result of `jwtService.Get` for a request is a parameter of the handler. The error
`provider.NewApple` reports, if any, is a parameter of `AddAppleProvider`.

Modules: `Results` (Option, Result), `GoStrings`, `NetUrl`, `ProviderNames`, `Config`
(options, token-service wiring, defaults), `Providers` (provider variants, names, lookup),
`Routes` (the handler's decision), `Auth` (the `Service` class).

## Model

| member | source | states |
|---|---|---|
| GoStrings.TrimSpace | backend/vendor/github.com/go-pkgz/auth/v2/auth.go:283 | the trimmed name is empty exactly when every rune is Unicode white space |
| GoStrings.IsSpace | backend/vendor/github.com/go-pkgz/auth/v2/auth.go:283 | white space is Unicode's White_Space set; among ASCII runes exactly tab, newline, vertical tab, form feed, carriage return and space, and never a letter or digit |
| GoStrings.TrimLeftSpace | backend/vendor/github.com/go-pkgz/auth/v2/auth.go:283 | what is removed is white space, what is kept is a suffix not starting with white space |
| GoStrings.TrimRightSpace | backend/vendor/github.com/go-pkgz/auth/v2/auth.go:283 | what is removed is white space, what is kept is a prefix not ending with white space |
| GoStrings.ToLowerRune | backend/vendor/github.com/go-pkgz/auth/v2/auth.go:246 | A-Z go to a-z, U+0130 to 'i', U+212A to 'k', and every other rune stays as it is; the result is an ASCII lower-case letter exactly when the rune is that letter, its capital, U+0130 or U+212A |
| GoStrings.ToLower | backend/vendor/github.com/go-pkgz/auth/v2/auth.go:246 | lower-casing keeps the length and maps each rune on its own |
| GoStrings.ToLowerOfLowered | backend/vendor/github.com/go-pkgz/auth/v2/auth.go:246 | lower-casing leaves an already lower-case name unchanged |
| GoStrings.Split | backend/vendor/github.com/go-pkgz/auth/v2/auth.go:156 | split pieces never hold '/'; there are at least two pieces exactly when the path holds a '/' |
| GoStrings.JoinOfSplit | backend/vendor/github.com/go-pkgz/auth/v2/auth.go:156 | joining the split pieces with '/' gives back the path |
| GoStrings.SplitOfJoin | backend/vendor/github.com/go-pkgz/auth/v2/auth.go:156 | splitting a '/'-join of slash-free segments gives back the segments |
| NetUrl.EncodeRune | backend/vendor/github.com/go-pkgz/auth/v2/auth.go:292-297 | a rune's UTF-8 encoding has 1 to 4 bytes: the rune itself when ASCII, else bytes all at or above 0x80 |
| NetUrl.PercentInUtf8 | backend/vendor/github.com/go-pkgz/auth/v2/auth.go:292 | the byte '%' occurs in a name's UTF-8 bytes exactly when the rune '%' occurs in the name |
| NetUrl.Utf8OfAscii | backend/vendor/github.com/go-pkgz/auth/v2/auth.go:292-297 | an ASCII name's byte string is the name itself |
| NetUrl.Utf8AsciiIff | backend/vendor/github.com/go-pkgz/auth/v2/auth.go:292-297 | the byte string is all below 0x80 exactly when every rune is ASCII |
| NetUrl.ShouldEscape | backend/vendor/github.com/go-pkgz/auth/v2/auth.go:297 | path-segment escaping keeps only ASCII bytes, and always escapes '%', '/' and '?' |
| NetUrl.EscapeBytes | backend/vendor/github.com/go-pkgz/auth/v2/auth.go:297 | escaping never shortens, and leaves unchanged a byte string with nothing to escape |
| NetUrl.EscapeBytesFixedIff | backend/vendor/github.com/go-pkgz/auth/v2/auth.go:297 | escaping leaves a byte string unchanged exactly when no byte in it needs escaping |
| NetUrl.PathEscape | backend/vendor/github.com/go-pkgz/auth/v2/auth.go:297 | PathEscape gives back the name's bytes exactly when no byte of it needs escaping |
| NetUrl.UnescapeBytes | backend/vendor/github.com/go-pkgz/auth/v2/auth.go:292-293 | unescaping gives back its input exactly when the input holds no '%'; otherwise it fails or shortens the input |
| NetUrl.PathUnescape | backend/vendor/github.com/go-pkgz/auth/v2/auth.go:292 | PathUnescape gives back the name's bytes exactly when the name holds no '%' |
| NetUrl.Unhex | backend/vendor/github.com/go-pkgz/auth/v2/auth.go:292 | a hex digit decodes to 0..15 |
| ProviderNames.HasReserved | backend/vendor/github.com/go-pkgz/auth/v2/auth.go:303 | the reserved-character class (the 18 reserved characters of RFC 3986 section 2.2) always matches a name with '/', ':' or '@', and never an all-unreserved name |
| ProviderNames.IsValidProviderName | backend/vendor/github.com/go-pkgz/auth/v2/auth.go:282-309 | an accepted name is not blank, is non-empty, holds no '%', '/' or reserved character, and escapes to its own bytes |
| ProviderNames.AcceptedIsUnreserved | backend/vendor/github.com/go-pkgz/auth/v2/auth.go:282-309 | an accepted name is non-empty and made only of RFC 3986 unreserved characters |
| ProviderNames.UnreservedIsAccepted | backend/vendor/github.com/go-pkgz/auth/v2/auth.go:282-309 | a non-empty name of unreserved characters passes all four checks |
| ProviderNames.ValidNameIff | backend/vendor/github.com/go-pkgz/auth/v2/auth.go:282-309 | the name check accepts exactly the non-empty names of unreserved characters, in both directions |
| Config.ReadSecret | backend/vendor/github.com/go-pkgz/auth/v2/auth.go:125-128 | the reader NewService installs fails for every audience with "secrets reader not available" |
| Config.IssuerFor | backend/vendor/github.com/go-pkgz/auth/v2/auth.go:95-97 | the issuer is the configured one when one is configured and "go-pkgz/auth" otherwise, so it is never empty |
| Config.LoggerFor | backend/vendor/github.com/go-pkgz/auth/v2/auth.go:99-101 | the caller's logger is used exactly when one is given, else the no-op logger |
| Config.TokenServiceFor | backend/vendor/github.com/go-pkgz/auth/v2/auth.go:103-130 | the token service gets the service's issuer and each of the seventeen token options auth.go passes on (claims updater, cookie and header names, durations, XSRF, IAT, JWT query and header, audience reader and secrets, SameSite), and its secret reader is never missing: the caller's reader exactly when one is given |
| Config.AvatarProxyFor | backend/vendor/github.com/go-pkgz/auth/v2/auth.go:136-147 | there is an avatar proxy exactly when a store is set; it carries that store, the URL, the resize limit and the logger; its route is the configured one, or "/avatar" when none is configured |
| Providers.BuiltinNamed | backend/vendor/github.com/go-pkgz/auth/v2/auth.go:246-269 | a name selects built-in b only when its lower case is b's name, and selects none exactly when its lower case is no built-in's name |
| Providers.CanonicalNameIsLower | backend/vendor/github.com/go-pkgz/auth/v2/auth.go:246-266 | every built-in provider's name is already lower case |
| Providers.BuiltinNamedOfCanonical | backend/vendor/github.com/go-pkgz/auth/v2/auth.go:246-266 | every built-in is selected by its own name in any letter case |
| Providers.Names | backend/vendor/github.com/go-pkgz/auth/v2/auth.go:164-167 | the name list has one entry per provider, in registration order |
| Providers.FirstNamed | backend/vendor/github.com/go-pkgz/auth/v2/auth.go:435-442 | the lookup finds a provider exactly when some provider has exactly that name, and then the earliest one |
| Providers.FirstNamedAfterAppend | backend/vendor/github.com/go-pkgz/auth/v2/auth.go:274-280 | appending a provider never changes what an already-registered name finds; the new one is found only under a name nobody had |
| Routes.Decide | backend/vendor/github.com/go-pkgz/auth/v2/auth.go:155-219 | the bare 400 (empty body) exactly when the path has fewer than two segments; last segment "list" always gives the list of every name in registration order; only registered providers are delegated to; 401 and user info come only from the user route |
| Routes.BadRequestIff | backend/vendor/github.com/go-pkgz/auth/v2/auth.go:156-160 | a path is refused with 400 at once exactly when it holds no '/' |
| Routes.ProviderRoute | backend/vendor/github.com/go-pkgz/auth/v2/auth.go:210-218 | {prefix}/{name}/{action}, for any slash-free name, reaches the first provider with exactly that name, and is refused with 400 ("not supported") when there is none |
| Routes.RegisteredProviderRoute | backend/vendor/github.com/go-pkgz/auth/v2/auth.go:274-280 | after registering a provider under a valid, unused name, its routes reach it; under a name already taken they keep the earlier provider |
| Routes.LogoutRoute | backend/vendor/github.com/go-pkgz/auth/v2/auth.go:172-181 | {prefix}/logout is served by the first registered provider, or refused with 400 when there is none |
| Routes.ListRoute | backend/vendor/github.com/go-pkgz/auth/v2/auth.go:162-170 | {prefix}/list answers with the names of all registered providers, one per provider, in registration order |
| Routes.UserRoute | backend/vendor/github.com/go-pkgz/auth/v2/auth.go:183-197 | the user route shows user u exactly when Get succeeds with u, and answers 401 when Get fails or the user is nil |
| Routes.StatusRoute | backend/vendor/github.com/go-pkgz/auth/v2/auth.go:199-208 | the status route reports a login, with the user's name, exactly when Get succeeds with a user, and "not logged in" otherwise |
| Auth.Service.NewService | backend/vendor/github.com/go-pkgz/auth/v2/auth.go:80-150 | the new service has no providers; issuer, logger, token service and avatar proxy are the defaulted values; the middleware carries the configured hooks |
| Auth.Service.BaseParams | backend/vendor/github.com/go-pkgz/auth/v2/auth.go:342-348 | provider parameters carry the service's URL, issuer, token service, avatar proxy and logger |
| Auth.Service.Register | backend/vendor/github.com/go-pkgz/auth/v2/auth.go:274-280 | one entry is appended at the end exactly when its name is valid, otherwise nothing changes; the middleware's list equals the registry afterwards |
| Auth.Service.RegisterByName | backend/vendor/github.com/go-pkgz/auth/v2/auth.go:244-272 | the built-in the lower-cased name selects is appended; any other name leaves the registry unchanged |
| Auth.Service.AddProvider | backend/vendor/github.com/go-pkgz/auth/v2/auth.go:312-324 | a built-in provider selected by name is appended with the given client credentials; other names change nothing |
| Auth.Service.AddProviderWithUserAttributes | backend/vendor/github.com/go-pkgz/auth/v2/auth.go:230-242 | as AddProvider, and the provider keeps the given user-attribute mapping |
| Auth.Service.AddDevProvider | backend/vendor/github.com/go-pkgz/auth/v2/auth.go:327-338 | the dev provider, with the given host and port, is always appended |
| Auth.Service.AddAppleProvider | backend/vendor/github.com/go-pkgz/auth/v2/auth.go:341-358 | when NewApple fails the error is wrapped and the registry is unchanged; otherwise the apple provider is appended and no error is returned |
| Auth.Service.AddCustomProvider | backend/vendor/github.com/go-pkgz/auth/v2/auth.go:361-372 | a custom provider with the client's credentials is appended exactly when its name is valid |
| Auth.Service.AddDirectProvider | backend/vendor/github.com/go-pkgz/auth/v2/auth.go:376-386 | a direct-check provider is appended exactly when its name is valid |
| Auth.Service.AddDirectProviderWithUserIDFunc | backend/vendor/github.com/go-pkgz/auth/v2/auth.go:391-402 | as AddDirectProvider, with the given user-ID function |
| Auth.Service.AddVerifProvider | backend/vendor/github.com/go-pkgz/auth/v2/auth.go:405-417 | a verification provider with the service's Gravatar setting is appended exactly when its name is valid |
| Auth.Service.AddCustomHandler | backend/vendor/github.com/go-pkgz/auth/v2/auth.go:420-422 | a caller's provider is appended exactly when its name is valid |
| Auth.Service.DevAuth | backend/vendor/github.com/go-pkgz/auth/v2/auth.go:425-432 | DevAuth fails with the wrapped not-found error exactly when no provider is named "dev"; otherwise it uses the earliest provider named "dev" |
| Auth.Service.Provider | backend/vendor/github.com/go-pkgz/auth/v2/auth.go:435-442 | the lookup fails exactly when no entry has exactly that name, with "provider <name> not found"; otherwise it returns the earliest such entry |
| Auth.Service.Providers | backend/vendor/github.com/go-pkgz/auth/v2/auth.go:445-447 | the registry equals the middleware's list, and every name in it is valid |
| Auth.Service.Middleware | backend/vendor/github.com/go-pkgz/auth/v2/auth.go:225-227 | the middleware shares the registry and token service, whose issuer is the service's |
| Auth.Service.TokenService | backend/vendor/github.com/go-pkgz/auth/v2/auth.go:450-452 | the token service carries the service's issuer and always has a secret reader |
| Auth.Service.AvatarProxy | backend/vendor/github.com/go-pkgz/auth/v2/auth.go:455-457 | the avatar proxy exists exactly when a store is configured, and its route is never empty |
| Auth.Service.ServeAuth | backend/vendor/github.com/go-pkgz/auth/v2/auth.go:155-219 | one request gets the decision of Routes.Decide on the path's '/'-pieces; the names list is built by a loop in registration order |
| Auth.FixedNameIsValid | backend/vendor/github.com/go-pkgz/auth/v2/auth.go:244-272 | built-in and Apple providers have valid names, so creating one always registers it |

## Left out

- The `token`, `middleware`, `provider` and `avatar` packages are not part of this model. JWT handling, CSRF, refresh caching, OAuth2 handshakes and avatar storage are not modelled. `jwtService.Get` and each provider's `Handler` are opaque: the handler's result names the provider that serves the request.
- The names the built-in constructors give their providers ("github", ..., "dev", "apple") come from the `provider` package. That package is not part of this model.
- `token.NewService` applies its own defaults (cookie names and similar). Those are not part of this model. `Service.jwtService` records the options auth.go passes and the secret reader it installs afterwards.
- HTTP plumbing: status codes, JSON rendering and `http.HandlerFunc` wrapping. The avatar handler that `Handlers` also returns is not modelled. The outcome datatype records the response the source chooses.
- Logging: `Logf` messages and the `[WARN]`/`[ERROR]` lines.
- Auth.Service.DevAuth: the type assertion of the "dev" provider to `provider.Oauth2Handler` (auth.go:431) is not modelled. The model returns `Ok` with the first provider named "dev" whatever its kind. Go panics instead when that provider is a `DirectHandler` (registered by `AddDirectProvider("dev", ...)` or `AddDirectProviderWithUserIDFunc("dev", ...)`), a `VerifyHandler` (`AddVerifProvider("dev", ...)`), or a caller's own provider (`AddCustomHandler`) whose type is not `Oauth2Handler`.
- Names are sequences of Unicode scalar values. Go strings holding invalid UTF-8 are not modelled.
- GoStrings.ToLower, GoStrings.ToLowerRune: they lower-case only the runes whose Go lower case is ASCII (A-Z, U+0130, U+212A). Other runes are left unchanged. Go maps none of them to ASCII, so the comparison with the ten ASCII built-in names comes out the same.
- The difference between a nil and an empty user-attribute map is not modelled. Both read as empty in Go.
- Concurrent use of the service (Add* racing with the handler) is not modelled. The source gives no guarantee for it either.


