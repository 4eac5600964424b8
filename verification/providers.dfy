/**
 * Providers as auth.go sees them: a closed set of variants (the provider
 * package's constructors and handler types), each answering Name(), and the
 * ordered registry of them with its exact-name, first-match lookup.
 */
module Providers {
  import opened Results
  import opened GoStrings
  import opened Config

  /** The providers addProviderByName can build by name. */
  datatype Builtin = Github | Google | Facebook | Yandex | Battlenet | Microsoft | Twitter | Patreon | Discord | Dev

  /** The name each built-in constructor gives its provider (provider.NewGithub names it "github", ...). */
  function CanonicalName(b: Builtin): string {
    match b
    case Github => "github"
    case Google => "google"
    case Facebook => "facebook"
    case Yandex => "yandex"
    case Battlenet => "battlenet"
    case Microsoft => "microsoft"
    case Twitter => "twitter"
    case Patreon => "patreon"
    case Discord => "discord"
    case Dev => "dev"
  }

  /**
   * The switch of addProviderByName: which built-in, if any, the lower-cased
   * name selects. A name selects b exactly when its lower case is b's name.
   */
  function BuiltinNamed(name: string): (r: Option<Builtin>)
    ensures r.Some? ==> ToLower(name) == CanonicalName(r.value)
    ensures r.None? <==> forall b :: ToLower(name) != CanonicalName(b)
  {
    match ToLower(name)
    case "github" => Some(Github)
    case "google" => Some(Google)
    case "facebook" => Some(Facebook)
    case "yandex" => Some(Yandex)
    case "battlenet" => Some(Battlenet)
    case "microsoft" => Some(Microsoft)
    case "twitter" => Some(Twitter)
    case "patreon" => Some(Patreon)
    case "discord" => Some(Discord)
    case "dev" => Some(Dev)
    case _ => None
  }

  /** A name is already lower case when ToLower leaves it as it is. */
  lemma CanonicalNameIsLower(b: Builtin)
    ensures ToLower(CanonicalName(b)) == CanonicalName(b)
  {
    var n := CanonicalName(b);
    assert IsLowered(n) by {
      forall i | 0 <= i < |n| ensures !('A' <= n[i] <= 'Z') && n[i] != '\U{0130}' && n[i] != '\U{212A}' {
        assert 'a' <= n[i] <= 'z';
      }
    }
    ToLowerOfLowered(n);
  }

  /** Different built-ins have different names. */
  lemma CanonicalNameInjective(a: Builtin, b: Builtin)
    requires CanonicalName(a) == CanonicalName(b)
    ensures a == b
  {
  }

  /** Each built-in's own name selects it, whatever the case it is written in. */
  lemma BuiltinNamedOfCanonical(b: Builtin, name: string)
    requires ToLower(name) == CanonicalName(b)
    ensures BuiltinNamed(name) == Some(b)
    ensures BuiltinNamed(CanonicalName(b)) == Some(b)
  {
    CanonicalNameIsLower(b);
    var r, s := BuiltinNamed(name), BuiltinNamed(CanonicalName(b));
    assert r.Some? && s.Some?;
    CanonicalNameInjective(r.value, b);
    CanonicalNameInjective(s.value, b);
  }

  /** provider.Params, as the Add* methods fill it; fields a method leaves out are Go zero values. */
  datatype Params = Params(
    url: string,
    jwtService: TokenService,
    issuer: string,
    avatarSaver: Option<AvatarProxy>,
    cid: string,
    csecret: string,
    logger: Logger,
    userAttributes: map<string, string>,
    port: int,
    host: string)

  /** provider.DirectHandler: checks credentials directly, no handshake. */
  datatype DirectHandler = DirectHandler(
    logger: Logger,
    providerName: string,
    issuer: string,
    tokenService: TokenService,
    credChecker: Hook,
    avatarSaver: Option<AvatarProxy>,
    userIDFunc: Option<Hook>)

  /** provider.VerifyHandler: sends a confirmation through a sender. */
  datatype VerifyHandler = VerifyHandler(
    logger: Logger,
    providerName: string,
    issuer: string,
    tokenService: TokenService,
    avatarSaver: Option<AvatarProxy>,
    sender: Hook,
    template: string,
    useGravatar: bool)

  /** A provider.Provider, one variant per way auth.go creates one. */
  datatype Provider =
    | OAuth2(builtin: Builtin, params: Params)
    | Apple(appleParams: Params, appleConfig: Hook, keyLoader: Hook)
    | Custom(customName: string, customParams: Params, handlerOpts: Hook)
    | Direct(direct: DirectHandler)
    | Verify(verify: VerifyHandler)
    | UserDefined(ownName: string, impl: Hook)
  {
    /** The provider's Name(). */
    function Name(): string {
      match this
      case OAuth2(b, _) => CanonicalName(b)
      case Apple(_, _, _) => "apple"
      case Custom(n, _, _) => n
      case Direct(d) => d.providerName
      case Verify(v) => v.providerName
      case UserDefined(n, _) => n
    }
  }

  /** The names of ps, in registration order. */
  function Names(ps: seq<Provider>): (r: seq<string>)
    ensures |r| == |ps|
    ensures forall i :: 0 <= i < |ps| ==> r[i] == ps[i].Name()
  {
    if ps == [] then [] else [ps[0].Name()] + Names(ps[1..])
  }

  /** The position of the first provider called name (exact, case-sensitive match), if any. */
  function FirstNamed(ps: seq<Provider>, name: string): (r: Option<nat>)
    ensures r.None? <==> forall i :: 0 <= i < |ps| ==> ps[i].Name() != name
    ensures r.Some? ==> r.value < |ps| && ps[r.value].Name() == name
    ensures r.Some? ==> forall i :: 0 <= i < r.value ==> ps[i].Name() != name
  {
    if ps == [] then None
    else if ps[0].Name() == name then Some(0)
    else match FirstNamed(ps[1..], name)
      case None => None
      case Some(i) => Some(i + 1)
  }

  /**
   * Appending a provider never changes which provider a name finds when one
   * was already registered under it: the earliest registration wins, and a new
   * provider is found only under a name nobody had.
   */
  lemma {:induction false} FirstNamedAfterAppend(ps: seq<Provider>, q: Provider, name: string)
    ensures FirstNamed(ps + [q], name) ==
      if FirstNamed(ps, name).Some? then FirstNamed(ps, name)
      else if q.Name() == name then Some(|ps|)
      else None
  {
    if ps != [] {
      assert (ps + [q])[1..] == ps[1..] + [q];
      FirstNamedAfterAppend(ps[1..], q, name);
    }
  }
}
