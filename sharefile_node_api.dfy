/**
  SharefileAPI of src/sharefile-node-api.ts: the session that owns the credentials,
  keeps the access token and its expiry, and hands out items by id or by path.
  The clock and every HTTP answer are parameters.
*/
module SharefileNodeApi {
  import opened Wrappers
  import opened Common
  import opened ItemIdClassifier
  import SharefileItems

  /** The credentials object as the caller passes it; any property may be missing. */
  datatype SharefileAuth = SharefileAuth(
    subdomain: Option<string>,
    clientId: Option<string>,
    clientSecret: Option<string>,
    username: Option<string>,
    password: Option<string>)

  /** Credentials once every property has been checked. */
  datatype Credentials = Credentials(
    subdomain: string, clientId: string, clientSecret: string, username: string, password: string)

  /** Credentials the constructor accepts: none of the five is empty. */
  predicate Filled(c: Credentials)
  {
    c.subdomain != "" && c.username != "" && c.password != "" && c.clientId != "" && c.clientSecret != ""
  }

  datatype Prop = Subdomain | Username | Password | ClientId | ClientSecret

  /** The properties the constructor requires, in the order it checks them. */
  const RequiredProps: seq<Prop> := [Subdomain, Username, Password, ClientId, ClientSecret]

  /** The name a missing property is reported under. */
  function PropName(p: Prop): string
  {
    match p
    case Subdomain => "subdomain"
    case Username => "username"
    case Password => "password"
    case ClientId => "clientId"
    case ClientSecret => "clientSecret"
  }

  /** `auth[prop]`. */
  function Field(auth: SharefileAuth, p: Prop): Option<string>
  {
    match p
    case Subdomain => auth.subdomain
    case Username => auth.username
    case Password => auth.password
    case ClientId => auth.clientId
    case ClientSecret => auth.clientSecret
  }

  /** Every required property is present and not empty. */
  predicate Complete(auth: SharefileAuth)
  {
    forall i :: 0 <= i < |RequiredProps| ==> Present(Field(auth, RequiredProps[i]))
  }

  /** The five properties together are exactly what the constructor requires. */
  lemma CompleteMeansAllFive(auth: SharefileAuth)
    ensures Complete(auth) <==>
      Present(auth.subdomain) && Present(auth.username) && Present(auth.password)
      && Present(auth.clientId) && Present(auth.clientSecret)
  {
    assert RequiredProps[0] == Subdomain && RequiredProps[1] == Username && RequiredProps[2] == Password;
    assert RequiredProps[3] == ClientId && RequiredProps[4] == ClientSecret;
  }

  function ToCredentials(auth: SharefileAuth): (c: Credentials)
    requires Complete(auth)
    ensures Filled(c)
    ensures Some(c.subdomain) == auth.subdomain && Some(c.username) == auth.username
    ensures Some(c.password) == auth.password && Some(c.clientId) == auth.clientId
    ensures Some(c.clientSecret) == auth.clientSecret
  {
    CompleteMeansAllFive(auth);
    Credentials(auth.subdomain.value, auth.clientId.value, auth.clientSecret.value,
                auth.username.value, auth.password.value)
  }

  /**
    The constructor's `forEach` over the required properties: it passes when all are
    present, and otherwise throws naming the first missing one in checking order.
  */
  method CheckRequired(auth: SharefileAuth) returns (r: Outcome<Error>)
    ensures r.Pass? <==> Complete(auth)
    ensures r.Fail? ==>
      exists i :: 0 <= i < |RequiredProps| && !Present(Field(auth, RequiredProps[i]))
        && (forall j :: 0 <= j < i ==> Present(Field(auth, RequiredProps[j])))
        && r.error == PropRequired(PropName(RequiredProps[i]))
  {
    var i := 0;
    while i < |RequiredProps|
      invariant 0 <= i <= |RequiredProps|
      invariant forall j :: 0 <= j < i ==> Present(Field(auth, RequiredProps[j]))
    {
      var prop := RequiredProps[i];
      if !Present(Field(auth, prop)) {
        return Fail(PropRequired(PropName(prop)));
      }
      i := i + 1;
    }
    return Pass;
  }

  /** The service's API base URL for a subdomain. */
  function ApiPath(subdomain: string): (p: string)
    ensures |p| == |subdomain| + 25
    ensures p[..8] == "https://" && p[8..|p| - 17] == subdomain && p[|p| - 17..] == ".sf-api.com/sf/v3"
  {
    "https://" + subdomain + ".sf-api.com/sf/v3"
  }

  /** The OAuth token endpoint for a subdomain. */
  function AuthPath(subdomain: string): (p: string)
    ensures |p| == |subdomain| + 34
    ensures p[..8] == "https://" && p[8..|p| - 26] == subdomain && p[|p| - 26..] == ".sharefile.com/oauth/token"
  {
    "https://" + subdomain + ".sharefile.com/oauth/token"
  }

  /** Different subdomains talk to different API hosts. */
  lemma ApiPathInjective(a: string, b: string)
    requires ApiPath(a) == ApiPath(b)
    ensures a == b
  {
  }

  /** Different subdomains authenticate at different endpoints. */
  lemma AuthPathInjective(a: string, b: string)
    requires AuthPath(a) == AuthPath(b)
    ensures a == b
  {
  }

  /** The login answer; its other properties (state, subdomain, apicp, appcp, h) are not read. */
  datatype SharefileLoginResponse = SharefileLoginResponse(
    accessToken: string,  // access_token
    expiresIn: int)       // expires_in, documented in seconds

  /** The session's mutable state: the access token and its expiry instant (milliseconds). */
  datatype TokenState = TokenState(accessToken: Option<string>, expiresOn: Option<int>)

  /** `isTokenExpired` at clock reading `now` (milliseconds). */
  predicate Expired(s: TokenState, now: int)
  {
    s.expiresOn.None? || now >= s.expiresOn.value
  }

  /** `getHttpConfig` authenticates first when the token is missing or empty, or expired. */
  predicate NeedsLogin(s: TokenState, now: int)
  {
    !Present(s.accessToken) || Expired(s, now)
  }

  /** The state `authenticate` leaves: `expires_in` is added to the clock reading as it is. */
  function AfterLogin(loginTime: int, login: SharefileLoginResponse): TokenState
  {
    TokenState(Some(login.accessToken), Some(loginTime + login.expiresIn))
  }

  /** The request configuration carrying `token`. */
  function Bearer(token: string): HttpConfig
  {
    HttpConfig("Bearer " + token)
  }

  /**
    What `getHttpConfig` does to the state and what it returns: clock reading `now`
    when it checks the token, `loginTime` when a login answer `login` arrives.
  */
  function ConfigStep(s: TokenState, now: int, loginTime: int, login: Result<SharefileLoginResponse, Error>)
    : (TokenState, Result<HttpConfig, Error>)
  {
    if !NeedsLogin(s, now) then (s, Success(Bearer(s.accessToken.value)))
    else
      match login
      case Failure(e) => (s, Failure(e))
      case Success(l) => (AfterLogin(loginTime, l), Success(Bearer(l.accessToken)))
  }

  /** A session that never logged in is expired at every instant. */
  lemma FreshSessionIsExpired(now: int)
    ensures Expired(TokenState(None, None), now)
  {
  }

  /** With an expiry stored, the token is expired exactly from that instant on. */
  lemma StoredExpiryDecides(s: TokenState, now: int)
    requires s.expiresOn.Some?
    ensures Expired(s, now) <==> now >= s.expiresOn.value
  {
  }

  /** Once expired, a token stays expired. */
  lemma ExpiryIsMonotone(s: TokenState, now: int, later: int)
    requires Expired(s, now) && now <= later
    ensures Expired(s, later)
  {
  }

  /** A configuration reused while the token is valid asks for no login and changes nothing. */
  lemma ReuseWhileValid(s: TokenState, now: int, loginTime: int, login: Result<SharefileLoginResponse, Error>)
    requires !NeedsLogin(s, now)
    ensures ConfigStep(s, now, loginTime, login) == (s, Success(HttpConfig("Bearer " + s.accessToken.value)))
  {
  }

  /**
    Two `getHttpConfig` calls with the token still valid at the second give the same
    header and leave the state the first one left.
  */
  lemma SameHeaderBeforeExpiry(s0: TokenState, t1: int, lt1: int, l1: Result<SharefileLoginResponse, Error>,
                                t2: int, lt2: int, l2: Result<SharefileLoginResponse, Error>)
    requires ConfigStep(s0, t1, lt1, l1).1.Success?
    requires !NeedsLogin(ConfigStep(s0, t1, lt1, l1).0, t2)
    ensures ConfigStep(ConfigStep(s0, t1, lt1, l1).0, t2, lt2, l2) == ConfigStep(s0, t1, lt1, l1)
  {
  }

  /** An expired token is replaced by the next login's, and the header carries the new one. */
  lemma RefreshAfterExpiry(s: TokenState, now: int, loginTime: int, l: SharefileLoginResponse)
    requires Expired(s, now)
    ensures ConfigStep(s, now, loginTime, Success(l)) == (AfterLogin(loginTime, l), Success(Bearer(l.accessToken)))
  {
  }

  /**
    `expires_in` is not converted from seconds: a login whose lifetime is at most
    30000 (which includes the usual 28800 seconds) is expired 30000 milliseconds
    later, and is valid just after login when the lifetime is positive.
  */
  lemma LifetimeIsNotConverted(loginTime: int, l: SharefileLoginResponse)
    requires 0 < l.expiresIn <= 30000 && l.accessToken != ""
    ensures !NeedsLogin(AfterLogin(loginTime, l), loginTime)
    ensures Expired(AfterLogin(loginTime, l), loginTime + 30000)
  {
  }

  /** How `items` looks an item up. */
  datatype ItemLookup = ById(id: string) | ByPath(path: string)

  /** `items(s)`: by id when `s` is item-id shaped, otherwise by path. */
  function LookupFor(s: string): ItemLookup
  {
    if !IsItemId(s) then ByPath(s) else ById(s)
  }

  /** The root path "/" is looked up by path. */
  lemma RootIsLookedUpByPath()
    ensures LookupFor("/") == ByPath("/")
  {
  }

  /**
    The special ids that the documentation of `items` lists are not id-shaped, so
    they reach the path lookup, never `<api>/Items(<id>)`.
  */
  lemma SpecialIdsGoByPath()
    ensures LookupFor("home") == ByPath("home")
    ensures LookupFor("favorites") == ByPath("favorites")
    ensures LookupFor("allshared") == ByPath("allshared")
    ensures LookupFor("connectors") == ByPath("connectors")
    ensures LookupFor("box") == ByPath("box")
    ensures LookupFor("top") == ByPath("top")
  {
  }

  /** The lookup keeps the caller's string and picks the id lookup exactly for id-shaped strings. */
  lemma LookupForClassifies(s: string)
    ensures LookupFor(s).ById? <==> |s| == 36 && Count(s, '-') == 4
    ensures LookupFor(s) == ById(s) || LookupFor(s) == ByPath(s)
  {
  }

  /** The GET a lookup makes. The path is inserted unescaped. */
  function ItemsUrl(apiPath: string, l: ItemLookup): string
  {
    match l
    case ById(id) => apiPath + "/Items" + (if id != "" then "(" + id + ")" else "")
    case ByPath(p) => apiPath + "/Items/ByPath?path=" + p
  }

  /** An id lookup always names the id: an id-shaped string is never empty. */
  lemma IdUrlNamesTheId(apiPath: string, s: string)
    requires IsItemId(s)
    ensures ItemsUrl(apiPath, LookupFor(s)) == apiPath + "/Items(" + s + ")"
  {
  }

  /** A GET the session sends for an item: its URL and its configuration. */
  datatype ItemRequest = ItemRequest(url: string, config: HttpConfig)

  class SharefileApi {
    const auth: Credentials
    var accessToken: Option<string>
    var tokenExpiresOn: Option<int>

    /** The token state. */
    function State(): TokenState
      reads this
    {
      TokenState(accessToken, tokenExpiresOn)
    }

    /** The successful constructor; `New` models the rejected credentials. */
    constructor (auth: Credentials)
      requires Filled(auth)
      ensures this.auth == auth && State() == TokenState(None, None)
    {
      this.auth := auth;
      accessToken := None;
      tokenExpiresOn := None;
    }

    /**
      `new SharefileAPI(auth)`: throws when `auth` is absent, or names the first
      missing credential; otherwise a session with no token yet.
    */
    static method New(input: Option<SharefileAuth>) returns (r: Result<SharefileApi, Error>)
      ensures input.None? ==> r == Failure(AuthMissing)
      ensures input.Some? ==> (r.Success? <==> Complete(input.value))
      ensures input.Some? && r.Failure? ==>
        exists i :: 0 <= i < |RequiredProps| && !Present(Field(input.value, RequiredProps[i]))
          && (forall j :: 0 <= j < i ==> Present(Field(input.value, RequiredProps[j])))
          && r.error == PropRequired(PropName(RequiredProps[i]))
      ensures r.Success? ==>
        fresh(r.value) && r.value.auth == ToCredentials(input.value) && r.value.State() == TokenState(None, None)
    {
      if input.None? {
        return Failure(AuthMissing);
      }
      var check := CheckRequired(input.value);
      if check.Fail? {
        return Failure(check.error);
      }
      var api := new SharefileApi(ToCredentials(input.value));
      return Success(api);
    }

    /** `isTokenExpired`, read at clock reading `now`. */
    function IsTokenExpired(now: int): (b: bool)
      reads this
      ensures b <==> tokenExpiresOn.None? || now >= tokenExpiresOn.value
    {
      Expired(State(), now)
    }

    /**
      `authenticate`: `login` is the token endpoint's answer, `now` the clock reading
      after it. A failure is passed on with nothing changed; otherwise both token
      fields are replaced and the token is returned. The credentials are a snapshot
      taken by the constructor and never change.
    */
    method Authenticate(now: int, login: Result<SharefileLoginResponse, Error>) returns (r: Result<string, Error>)
      modifies this
      ensures login.Failure? ==> r == Failure(login.error) && State() == old(State())
      ensures login.Success? ==> r == Success(login.value.accessToken) && State() == AfterLogin(now, login.value)
    {
      match login {
        case Failure(e) => r := Failure(e);
        case Success(data) =>
          tokenExpiresOn := Some(now + data.expiresIn);
          accessToken := Some(data.accessToken);
          r := Success(data.accessToken);
      }
    }

    /**
      `getHttpConfig`: authenticates exactly when the token is missing or expired at
      `now`, and returns the header for the stored or the new token.
    */
    method GetHttpConfig(now: int, loginTime: int, login: Result<SharefileLoginResponse, Error>)
      returns (r: Result<HttpConfig, Error>)
      modifies this
      ensures (State(), r) == ConfigStep(old(State()), now, loginTime, login)
    {
      var token := accessToken;
      if !Present(token) || IsTokenExpired(now) {
        var renewed := Authenticate(loginTime, login);
        if renewed.Failure? {
          return Failure(renewed.error);
        }
        token := Some(renewed.value);
      }
      return Success(Bearer(token.value));
    }

    /**
      `itemsByPath(path)`: obtain a configuration, GET the item by path (`fetched` is
      the answer) and construct it with that configuration.
    */
    method ItemsByPath(path: string, now: int, loginTime: int, login: Result<SharefileLoginResponse, Error>,
                       fetched: Result<Option<SharefileItems.Payload>, Error>)
      returns (request: Option<ItemRequest>, r: Result<SharefileItems.SharefileItem, Error>)
      modifies this
      ensures State() == ConfigStep(old(State()), now, loginTime, login).0
      ensures ConfigStep(old(State()), now, loginTime, login).1.Failure? ==>
        request == None && r == Failure(ConfigStep(old(State()), now, loginTime, login).1.error)
      ensures ConfigStep(old(State()), now, loginTime, login).1.Success? ==>
        var config := ConfigStep(old(State()), now, loginTime, login).1.value;
        && request == Some(ItemRequest(ItemsUrl(ApiPath(auth.subdomain), ByPath(path)), config))
        && (fetched.Failure? ==> r == Failure(fetched.error))
        && (fetched.Success? && SharefileItems.Construct(fetched.value).Failure? ==>
              r == Failure(SharefileItems.Construct(fetched.value).error))
        && (fetched.Success? && SharefileItems.Construct(fetched.value).Success? ==>
              && r.Success? && fresh(r.value)
              && r.value.fields == SharefileItems.Construct(fetched.value).value
              && r.value.httpConfig == config)
    {
      var config := GetHttpConfig(now, loginTime, login);
      if config.Failure? {
        return None, Failure(config.error);
      }
      request := Some(ItemRequest(ItemsUrl(ApiPath(auth.subdomain), ByPath(path)), config.value));
      if fetched.Failure? {
        return request, Failure(fetched.error);
      }
      r := SharefileItems.SharefileItem.New(fetched.value, config.value);
    }

    /** `items(s)`: by path unless `s` is item-id shaped, in which case by id. */
    method Items(s: string, now: int, loginTime: int, login: Result<SharefileLoginResponse, Error>,
                 fetched: Result<Option<SharefileItems.Payload>, Error>)
      returns (request: Option<ItemRequest>, r: Result<SharefileItems.SharefileItem, Error>)
      modifies this
      ensures State() == ConfigStep(old(State()), now, loginTime, login).0
      ensures ConfigStep(old(State()), now, loginTime, login).1.Failure? ==>
        request == None && r == Failure(ConfigStep(old(State()), now, loginTime, login).1.error)
      ensures ConfigStep(old(State()), now, loginTime, login).1.Success? ==>
        var config := ConfigStep(old(State()), now, loginTime, login).1.value;
        && request == Some(ItemRequest(ItemsUrl(ApiPath(auth.subdomain), LookupFor(s)), config))
        && (fetched.Failure? ==> r == Failure(fetched.error))
        && (fetched.Success? && SharefileItems.Construct(fetched.value).Failure? ==>
              r == Failure(SharefileItems.Construct(fetched.value).error))
        && (fetched.Success? && SharefileItems.Construct(fetched.value).Success? ==>
              && r.Success? && fresh(r.value)
              && r.value.fields == SharefileItems.Construct(fetched.value).value
              && r.value.httpConfig == config)
    {
      if !IsItemId(s) {
        request, r := ItemsByPath(s, now, loginTime, login, fetched);
        return;
      }
      var config := GetHttpConfig(now, loginTime, login);
      if config.Failure? {
        return None, Failure(config.error);
      }
      var idPath := if s != "" then "(" + s + ")" else "";
      request := Some(ItemRequest(ApiPath(auth.subdomain) + "/Items" + idPath, config.value));
      if fetched.Failure? {
        return request, Failure(fetched.error);
      }
      r := SharefileItems.SharefileItem.New(fetched.value, config.value);
    }
  }
}
