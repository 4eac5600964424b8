/**
 * What the auth handler of auth.go (the closure built by Handlers) decides to
 * do with a request, as a function of the path's segments, the registered
 * providers and what the token service's Get reports for the request.
 */
module Routes {
  import opened Results
  import opened GoStrings
  import opened Providers
  import opened ProviderNames

  /** token.User, as far as the handler looks into it. */
  datatype User = User(id: string, name: string)

  /** token.Claims: the user inside may be nil. */
  datatype Claims = Claims(user: Option<User>)

  /** What jwtService.Get returns for the request being served. */
  datatype GetResult = GetOk(claims: Claims) | GetErr(msg: string)

  /** The handler's response. */
  datatype Outcome =
    | BadRequest                        // 400, empty body
    | ProviderList(names: seq<string>)  // JSON list of provider names
    | NoProviders                       // 400, {"error": "providers not defined"}
    | Delegate(provider: Provider)      // the provider's Handler serves the request
    | Unauthorized(msg: string)         // 401, {"error": msg}
    | UserInfo(user: User)              // the user as JSON
    | NotLoggedIn                       // {"status": "not logged in"}
    | LoggedIn(userName: string)        // {"status": "logged in", "user": name}
    | UnsupportedProvider(name: string) // 400, {"error": "provider <name> not supported"}

  const UserIsNilMsg: string := "user is nil"

  /** The last segments that name an action of the handler itself rather than a provider's. */
  predicate IsOwnAction(segment: string) {
    segment == "list" || segment == "logout" || segment == "user" || segment == "status"
  }

  /** The handler's decision for a path split on '/' into elems. */
  function Decide(elems: seq<string>, providers: seq<Provider>, get: GetResult): (r: Outcome)
    ensures r.BadRequest? <==> |elems| < 2
    ensures |elems| >= 2 && elems[|elems| - 1] == "list" ==> r == ProviderList(Names(providers))
    ensures r.Delegate? ==> r.provider in providers
    ensures r.ProviderList? ==> r.names == Names(providers)
    ensures r.Unauthorized? || r.UserInfo? ==> elems[|elems| - 1] == "user"
  {
    if |elems| < 2 then BadRequest
    else
      var last := elems[|elems| - 1];
      if last == "list" then ProviderList(Names(providers))
      else if last == "logout" then
        if providers == [] then NoProviders else Delegate(providers[0])
      else if last == "user" then
        match get
        case GetErr(msg) => Unauthorized(msg)
        case GetOk(c) => if c.user.None? then Unauthorized(UserIsNilMsg) else UserInfo(c.user.value)
      else if last == "status" then
        match get
        case GetErr(_) => NotLoggedIn
        case GetOk(c) => if c.user.None? then NotLoggedIn else LoggedIn(c.user.value.name)
      else
        var name := elems[|elems| - 2];
        match FirstNamed(providers, name)
        case None => UnsupportedProvider(name)
        case Some(i) => Delegate(providers[i])
  }

  /** A path is answered 400 without further ado exactly when it has no '/'. */
  lemma BadRequestIff(path: string, providers: seq<Provider>, get: GetResult)
    ensures Decide(Split(path, '/'), providers, get) == BadRequest <==> '/' !in path
  {
  }

  /**
   * A route {prefix}/{name}/{action}, for any segment name and an action that
   * is not one of the handler's own, goes to the first provider registered
   * under exactly that name, and is refused with 400 when there is none
   * (always so for a name no valid provider can have, such as "" or "a:b").
   */
  lemma {:induction false} ProviderRoute(prefix: seq<string>, name: string, action: string,
                                         providers: seq<Provider>, get: GetResult)
    requires forall i :: 0 <= i < |prefix| ==> '/' !in prefix[i]
    requires '/' !in action && !IsOwnAction(action)
    requires '/' !in name
    ensures Decide(Split(Join(prefix + [name, action], '/'), '/'), providers, get) ==
      match FirstNamed(providers, name)
      case None => UnsupportedProvider(name)
      case Some(i) => Delegate(providers[i])
  {
    var segs := prefix + [name, action];
    assert forall i :: 0 <= i < |segs| ==> '/' !in segs[i];
    SplitOfJoin(segs, '/');
  }

  /**
   * Registering a provider under a valid name (non-empty, unreserved
   * characters only) nobody holds yet makes its
   * routes {prefix}/{name}/{action} reach it; registering it under a name
   * already taken leaves those routes with the earlier provider.
   */
  lemma {:induction false} RegisteredProviderRoute(prefix: seq<string>, action: string,
                                                   providers: seq<Provider>, q: Provider, get: GetResult)
    requires forall i :: 0 <= i < |prefix| ==> '/' !in prefix[i]
    requires '/' !in action && !IsOwnAction(action)
    requires q.Name() != [] && AllUnreserved(q.Name())
    ensures FirstNamed(providers, q.Name()).None? ==>
      Decide(Split(Join(prefix + [q.Name(), action], '/'), '/'), providers + [q], get) == Delegate(q)
    ensures FirstNamed(providers, q.Name()).Some? ==>
      Decide(Split(Join(prefix + [q.Name(), action], '/'), '/'), providers + [q], get) ==
      Decide(Split(Join(prefix + [q.Name(), action], '/'), '/'), providers, get)
  {
    var n := q.Name();
    assert '/' !in n by {
      forall i | 0 <= i < |n| ensures n[i] != '/' {
        assert IsUnreserved(n[i]);
      }
    }
    ProviderRoute(prefix, q.Name(), action, providers + [q], get);
    ProviderRoute(prefix, q.Name(), action, providers, get);
    FirstNamedAfterAppend(providers, q, q.Name());
    match FirstNamed(providers, q.Name())
    case Some(k) =>
      assert (providers + [q])[k] == providers[k];
    case None =>
  }

  /**
   * A route {prefix}/logout (with at least one segment before it) is served by
   * the first registered provider, and is refused with 400 when there is none.
   */
  lemma {:induction false} LogoutRoute(prefix: seq<string>, providers: seq<Provider>, get: GetResult)
    requires |prefix| >= 1
    requires forall i :: 0 <= i < |prefix| ==> '/' !in prefix[i]
    ensures Decide(Split(Join(prefix + ["logout"], '/'), '/'), providers, get) ==
      if providers == [] then NoProviders else Delegate(providers[0])
  {
    SplitOfJoin(prefix + ["logout"], '/');
  }

  /**
   * A route {prefix}/list (with at least one segment before it) answers with
   * the names of all registered providers, in registration order.
   */
  lemma {:induction false} ListRoute(prefix: seq<string>, providers: seq<Provider>, get: GetResult)
    requires |prefix| >= 1
    requires forall i :: 0 <= i < |prefix| ==> '/' !in prefix[i]
    ensures Decide(Split(Join(prefix + ["list"], '/'), '/'), providers, get) == ProviderList(Names(providers))
    ensures |Decide(Split(Join(prefix + ["list"], '/'), '/'), providers, get).names| == |providers|
  {
    SplitOfJoin(prefix + ["list"], '/');
  }

  /** The user route shows the user exactly when Get succeeds with a user, and answers 401 otherwise. */
  lemma UserRoute(elems: seq<string>, providers: seq<Provider>, get: GetResult, u: User)
    requires |elems| >= 2 && elems[|elems| - 1] == "user"
    ensures Decide(elems, providers, get) == UserInfo(u) <==> get == GetOk(Claims(Some(u)))
    ensures Decide(elems, providers, get).Unauthorized? <==> get.GetErr? || get.claims.user.None?
  {
  }

  /** The status route reports a login, with the user's name, exactly when Get succeeds with a user. */
  lemma StatusRoute(elems: seq<string>, providers: seq<Provider>, get: GetResult)
    requires |elems| >= 2 && elems[|elems| - 1] == "status"
    ensures Decide(elems, providers, get).LoggedIn? <==> get.GetOk? && get.claims.user.Some?
    ensures Decide(elems, providers, get).LoggedIn? ==>
      Decide(elems, providers, get).userName == get.claims.user.value.name
    ensures !Decide(elems, providers, get).LoggedIn? ==> Decide(elems, providers, get) == NotLoggedIn
  {
  }
}
