/**
 * The JWT gateway (`JWTRestfulAuthFilter`): verb routing on the authentication endpoint,
 * the new-token, refresh and revoke handlers, and the token gate in front of every other
 * REST request. Tokens are checked against the session ledger as well as their signature.
 */
module JwtGateway {
  import opened Wrappers
  import opened JavaStrings
  import opened Apps
  import opened ClientAgent
  import opened Providers
  import opened SessionLedger
  import opened PasswordAuth

  /** Wall-clock milliseconds (`System.currentTimeMillis`), always positive. */
  type Millis = n: int | n > 0 witness 1

  /** The claims the filter reads from a signed token. */
  datatype Claims = Claims(subject: string, appid: string, notBefore: int)

  /** `generateJWToken(user, app)`: subject the user, `appid` claim the app's id, not before now. */
  function Mint(user: User, app: App, now: Millis): Claims {
    Claims(user.id, app.id, now)
  }

  /** The authentication a valid token yields; no user means an app-level "super token". */
  datatype JwtAuthentication = JwtAuthentication(user: Option<User>, claims: Claims, app: App)

  /** The optional `isMetaLogin` entry of a new-token request: absent, JSON `null`, or a boolean. */
  datatype MetaLoginFlag = Absent | Null | Flag(value: bool)

  /** The JSON body of a new-token request. */
  datatype Entity = Entity(provider: Option<string>, appid: Option<string>, token: Option<string>, isMetaLogin: MetaLoginFlag)

  /** What the filter reads from a request. */
  datatype Request = Request(
    verb: string,
    isAuthEndpoint: bool,
    isRestRequest: bool,
    authorizationHeader: Option<string>,
    authorizationParam: Option<string>,
    userAgent: Option<string>,
    body: Option<Entity>)

  /**
   * The collaborators the filter calls but this model does not contain: the token
   * library, the app table, configuration, the user-agent detectors, the other
   * credential providers, the authentication manager's verdict, the clock and id
   * generation.
   */
  datatype Env = Env(
    parse: string -> Option<Claims>,
    serialize: Claims -> string,
    signerOk: bool,
    apps: map<string, App>,
    rootAppIdentifier: string,
    clientsCanAccessRootApp: bool,
    auth: AuthConfig,
    matches: PasswordCheck,
    detectors: Detectors,
    externalExchange: Provider -> Exchange,
    authenticates: bool,
    now: Millis,
    newUserId: string,
    newMetaLoginId: string)

  /** `generateJWToken`: `null` when signing fails. */
  function GenerateJWToken(user: User, app: App, env: Env): Option<Claims> {
    if env.signerOk then Some(Mint(user, app, env.now)) else None
  }

  const AuthorizationHeader: string := "Authorization"
  const WwwAuthenticateHeader: string := "WWW-Authenticate"
  const AppIdHeader: string := "APP_ID"
  const BearerChallenge: string := "Bearer"
  const InvalidTokenChallenge: string := "Bearer error=\"invalid_token\""

  const BadBodyMessage: string := "Invalid JSON body."
  const MissingParamsMessage: string := "Some of the required query parameters 'provider', 'appid', 'token', are missing."
  const UnknownAppMessage: string := "User belongs to an app that does not exist."
  const ReauthenticateMessage: string := "User must reauthenticate."
  const InvalidTokenMessage: string := "Invalid or expired token."

  function RootForbiddenMessage(appid: string, provider: string): string {
    "Can't authenticate user with app '" + appid + "' using provider '" + provider + "'. "
      + "Reason: clients aren't allowed to access root app."
  }

  function InactiveUserMessage(provider: string): string {
    "Failed to authenticate user with '" + provider + "'. Check if user is active."
  }

  function RevokedMessage(userId: string): string {
    "All tokens revoked for user " + userId + "!"
  }

  /** What a handler writes as the response body. */
  datatype Body = NoBody | Message(text: string) | Issued(accessToken: string, user: User)

  /** The servlet response: a status, headers and a body. */
  class Response {
    var status: int
    var headers: map<string, string>
    var body: Body

    constructor ()
      ensures status == 200 && headers == map[] && body == NoBody
    {
      status, headers, body := 200, map[], NoBody;
    }

    method SetHeader(name: string, value: string)
      modifies this
      ensures headers == old(headers)[name := value]
      ensures status == old(status) && body == old(body)
    {
      headers := headers[name := value];
    }

    /** `RestUtils.returnStatusResponse`. */
    method ReturnStatus(code: int, text: string)
      modifies this
      ensures status == code && body == Message(text) && headers == old(headers)
    {
      status, body := code, Message(text);
    }
  }

  /** The authentication slot of the security context. */
  class SecurityContext {
    var authentication: Option<JwtAuthentication>

    constructor ()
      ensures authentication == None
    {
      authentication := None;
    }
  }

  // ---------------------------------------------------------------------------
  // Reading a token from a request (getJWTfromRequest, validateToken)
  // ---------------------------------------------------------------------------

  /** The `Authorization` header, or the `Authorization` parameter when the header is absent. */
  function RawAuthorization(req: Request): Option<string> {
    if req.authorizationHeader.Some? then req.authorizationHeader else req.authorizationParam
  }

  /** A non-blank value containing "Bearer". */
  predicate CarriesBearer(raw: Option<string>) {
    raw.Some? && !IsBlank(raw.value) && Contains(raw.value, "Bearer")
  }

  /** What is handed to the token parser: the value without its first six characters, trimmed. */
  function BearerPayload(raw: string): string
    requires Contains(raw, "Bearer")
  {
    Trim(raw[6..])
  }

  /** The app a request's token names, if the token parses and the app exists. */
  function TokenApp(req: Request, env: Env): (r: Option<App>)
    ensures r.Some? <==>
      && CarriesBearer(RawAuthorization(req))
      && env.parse(BearerPayload(RawAuthorization(req).value)).Some?
      && env.parse(BearerPayload(RawAuthorization(req).value)).value.appid in env.apps
    ensures r.Some? ==> r.value == env.apps[env.parse(BearerPayload(RawAuthorization(req).value)).value.appid]
  {
    var raw := RawAuthorization(req);
    if !CarriesBearer(raw) then None
    else
      match env.parse(BearerPayload(raw.value))
      case None => None
      case Some(c) => if c.appid in env.apps then Some(env.apps[c.appid]) else None
  }

  /**
   * `getJWTfromRequest`: the authentication a request's token yields. A token of a known
   * user is only accepted with a live session record; a token whose subject is not a
   * user of the app is a super token, accepted without any session check.
   */
  function TokenFromRequest(req: Request, env: Env, users: seq<User>, records: seq<MetaLogin>): (r: Option<JwtAuthentication>)
    ensures r.Some? ==>
      && CarriesBearer(RawAuthorization(req))
      && env.parse(BearerPayload(RawAuthorization(req).value)) == Some(r.value.claims)
      && r.value.claims.appid in env.apps && r.value.app == env.apps[r.value.claims.appid]
      && TokenApp(req, env) == Some(r.value.app)
    ensures r.Some? && r.value.user.Some? ==>
      && r.value.user.value.id == r.value.claims.subject
      && Validate(records, r.value.app.id, r.value.user.value.id, r.value.claims.notBefore)
    ensures r.Some? && r.value.user.None? ==>
      FindUserById(users, r.value.app.identifier, r.value.claims.subject).None?
    ensures TokenApp(req, env).None? ==> r.None?
    ensures TokenApp(req, env).Some? ==>
      var c := env.parse(BearerPayload(RawAuthorization(req).value)).value;
      var app := TokenApp(req, env).value;
      var known := FindUserById(users, app.identifier, c.subject);
      && (known.None? ==> r == Some(JwtAuthentication(None, c, app)))
      && (known.Some? ==> (r.Some? <==> Validate(records, app.id, known.value.id, c.notBefore)))
      && (known.Some? && r.Some? ==> r.value == JwtAuthentication(known, c, app))
  {
    var raw := RawAuthorization(req);
    if !CarriesBearer(raw) then None
    else
      match env.parse(BearerPayload(raw.value))
      case None => None
      case Some(c) =>
        if c.appid !in env.apps then None
        else
          var app := env.apps[c.appid];
          match FindUserById(users, app.identifier, c.subject)
          case None => Some(JwtAuthentication(None, c, app))
          case Some(user) =>
            if Validate(records, app.id, user.id, c.notBefore) then Some(JwtAuthentication(Some(user), c, app))
            else None
  }

  /** The header wins over the parameter whenever it is present. */
  lemma HeaderTakesPrecedence(req: Request, param: Option<string>, env: Env, users: seq<User>, records: seq<MetaLogin>)
    requires req.authorizationHeader.Some?
    ensures TokenFromRequest(req.(authorizationParam := param), env, users, records) == TokenFromRequest(req, env, users, records)
  {
  }

  /** A known user whose token has no live session record gets no authentication. */
  lemma KnownUserNeedsLiveSession(req: Request, env: Env, users: seq<User>, records: seq<MetaLogin>, c: Claims, user: User)
    requires CarriesBearer(RawAuthorization(req))
    requires env.parse(BearerPayload(RawAuthorization(req).value)) == Some(c) && c.appid in env.apps
    requires FindUserById(users, env.apps[c.appid].identifier, c.subject) == Some(user)
    requires forall i :: 0 <= i < |records| && Matches(records[i], TokenQuery(env.apps[c.appid].id, user.id, c.notBefore)) ==> !IsLive(records[i])
    ensures TokenFromRequest(req, env, users, records) == None
  {
    NoLiveRecordRejects(records, env.apps[c.appid].id, user.id, c.notBefore);
  }

  /**
   * The `Authorization` value the success handler writes ("Bearer" glued to the
   * serialized token) hands the parser exactly the serialized token again.
   */
  lemma SuccessHeaderParsesBack(token: string)
    requires token == [] || (!IsTrimmable(token[0]) && !IsTrimmable(token[|token| - 1]))
    ensures var raw := "Bearer" + token;
      CarriesBearer(Some(raw)) && BearerPayload(raw) == token
  {
    var raw := "Bearer" + token;
    assert OccursAt(raw, "Bearer", 0);
    assert !IsWhitespace(raw[0]);
    assert raw[6..] == token;
    TrimOfTrimmed(token);
  }

  /**
   * Issue, then present: right after a tracked login, the token it minted (sent back as
   * the success handler's `Authorization` value) authenticates its user, provided the
   * token library parses what it serialized and the app's id and query partition agree.
   */
  lemma IssuedTokenAuthenticates(req: Request, env: Env, users: seq<User>, records: seq<MetaLogin>, app: App, user: User, agent: ClientClass)
    requires app.id == app.appid && app.id in env.apps && env.apps[app.id] == app
    requires FindUserById(users, app.identifier, user.id) == Some(user)
    requires var token := env.serialize(Mint(user, app, env.now));
      && (token == [] || (!IsTrimmable(token[0]) && !IsTrimmable(token[|token| - 1])))
      && env.parse(token) == Some(Mint(user, app, env.now))
      && req.authorizationHeader == Some("Bearer" + token)
    ensures TokenFromRequest(req, env, users, Issue(records, env.newMetaLoginId, app.appid, user.id, user.name, agent, env.now))
      == Some(JwtAuthentication(Some(user), Mint(user, app, env.now), app))
  {
    var c := Mint(user, app, env.now);
    var rs' := Issue(records, env.newMetaLoginId, app.appid, user.id, user.name, agent, env.now);
    PresentedTokenParses(req, env, env.serialize(c), c);
    IssueThenValidate(records, env.newMetaLoginId, app.appid, user.id, user.name, agent, env.now);
    assert Validate(rs', app.id, user.id, c.notBefore);
  }

  /** A request presenting "Bearer" glued to a serialized token hands the parser that token. */
  lemma PresentedTokenParses(req: Request, env: Env, token: string, c: Claims)
    requires token == [] || (!IsTrimmable(token[0]) && !IsTrimmable(token[|token| - 1]))
    requires env.parse(token) == Some(c) && c.appid in env.apps
    requires req.authorizationHeader == Some("Bearer" + token)
    ensures CarriesBearer(RawAuthorization(req)) && env.parse(BearerPayload(RawAuthorization(req).value)) == Some(c)
    ensures TokenApp(req, env) == Some(env.apps[c.appid])
  {
    SuccessHeaderParsesBack(token);
    assert RawAuthorization(req) == Some("Bearer" + token);
  }

  /**
   * Revoke, then present: once a client class's sessions are revoked (filed under the
   * app's `appid`, as the revoke handler does), a token of a known user is rejected when
   * all its session records belong to that class and the app's two keys agree.
   */
  lemma RevokedTokenRejected(req: Request, env: Env, users: seq<User>, records: seq<MetaLogin>, c: Claims, user: User, agent: ClientClass, now: Millis)
    requires LiveIsNewest(records)
    requires CarriesBearer(RawAuthorization(req))
    requires env.parse(BearerPayload(RawAuthorization(req).value)) == Some(c) && c.appid in env.apps
    requires env.apps[c.appid].id == env.apps[c.appid].appid
    requires FindUserById(users, env.apps[c.appid].identifier, c.subject) == Some(user)
    requires var app := env.apps[c.appid];
      forall i :: 0 <= i < |records| && Matches(records[i], TokenQuery(app.appid, user.id, c.notBefore)) ==> records[i].clientId == agent
    ensures TokenFromRequest(req, env, users, InvalidateClient(records, env.apps[c.appid].appid, user.id, agent, now)) == None
  {
    var app := env.apps[c.appid];
    InvalidateThenValidateFails(records, app.appid, user.id, agent, now, c.notBefore);
  }

  /**
   * Refresh, then present: a refreshed token's not-before time is the refresh time, but
   * refresh writes no session record. When every recorded login is older than the
   * refresh, the refreshed token of a known user is rejected.
   */
  lemma RefreshedTokenRejected(req: Request, env: Env, users: seq<User>, records: seq<MetaLogin>, app: App, user: User, agent: ClientClass, loginTime: Millis)
    requires forall i :: 0 <= i < |records| ==> records[i].loginTime < loginTime
    requires loginTime < env.now
    requires app.id == app.appid && app.id in env.apps && env.apps[app.id] == app
    requires FindUserById(users, app.identifier, user.id) == Some(user)
    requires CarriesBearer(RawAuthorization(req))
    requires env.parse(BearerPayload(RawAuthorization(req).value)) == Some(Mint(user, app, env.now))
    ensures TokenFromRequest(req, env, users, Issue(records, env.newMetaLoginId, app.appid, user.id, user.name, agent, loginTime)) == None
  {
    var rs' := Issue(records, env.newMetaLoginId, app.appid, user.id, user.name, agent, loginTime);
    var q := TokenQuery(app.id, user.id, env.now);
    forall i | 0 <= i < |rs'|
      ensures !Matches(rs'[i], q)
    {
      if i < |records| {
        assert SameButFailTime(records[i], rs'[i]);
      }
    }
    NoLiveRecordRejects(rs', app.id, user.id, env.now);
  }

  /** `getJWTfromRequest`, writing the `APP_ID` header when the token names a known app. */
  method GetJWTfromRequest(req: Request, env: Env, users: seq<User>, ledger: Ledger, res: Response) returns (jwt: Option<JwtAuthentication>)
    modifies res
    ensures jwt == TokenFromRequest(req, env, users, ledger.records)
    ensures res.headers == if TokenApp(req, env).Some? then old(res.headers)[AppIdHeader := TokenApp(req, env).value.identifier] else old(res.headers)
    ensures res.status == old(res.status) && res.body == old(res.body)
  {
    jwt := None;
    var token := RawAuthorization(req);
    if CarriesBearer(token) {
      var parsed := env.parse(BearerPayload(token.value));
      if parsed.Some? {
        var c := parsed.value;
        if c.appid in env.apps {
          var app := env.apps[c.appid];
          res.SetHeader(AppIdHeader, app.identifier);
          var user := FindUserById(users, app.identifier, c.subject);
          if user.Some? {
            var valid := ValidateToken(ledger, c, app.id, user.value.id);
            if !valid {
              return None;
            }
            jwt := Some(JwtAuthentication(Some(user.value), c, app));
          } else {
            jwt := Some(JwtAuthentication(None, c, app));
          }
        }
      }
    }
  }

  /** `validateToken`: scans the token query's page for a live record. */
  method ValidateToken(ledger: Ledger, c: Claims, appid: string, userId: string) returns (ok: bool)
    ensures ok == Validate(ledger.records, appid, userId, c.notBefore)
  {
    var metaLogins := ledger.FindTerms(TokenQuery(appid, userId, c.notBefore));
    var k := 0;
    while k < |metaLogins|
      invariant 0 <= k <= |metaLogins|
      invariant forall j :: 0 <= j < k ==> !IsLive(ledger.records[metaLogins[j]])
    {
      if IsLive(ledger.records[metaLogins[k]]) {
        return true;
      }
      k := k + 1;
    }
    return false;
  }

  // ---------------------------------------------------------------------------
  // Issuing (newTokenHandler, getJWToken)
  // ---------------------------------------------------------------------------

  /**
   * `getJWToken`: invalidates the live sessions of (app, user, client class), mints the
   * token, and records its not-before time as the new live session.
   */
  method GetJWToken(ledger: Ledger, app: App, user: User, agent: ClientClass, env: Env) returns (token: Option<Claims>)
    modifies ledger
    ensures token == GenerateJWToken(user, app, env)
    ensures ledger.records == if token.Some?
      then Issue(old(ledger.records), env.newMetaLoginId, app.appid, user.id, user.name, agent, env.now)
      else InvalidateClient(old(ledger.records), app.appid, user.id, agent, env.now)
  {
    var metaLogins := ledger.FindTerms(ClientQuery(app.appid, user.id, agent));
    ledger.InvalidateLive(metaLogins, env.now);
    token := GenerateJWToken(user, app, env);
    if token.Some? {
      ledger.Create(NewMetaLogin(env.newMetaLoginId, app.appid, user.id, user.name, agent, token.value.notBefore));
    }
  }

  /** A failed new-token request: its status and message. */
  datatype Rejection = Rejection(status: int, message: string)

  /** The outcome of the request checks that precede the credential exchange. */
  datatype Admission = Admitted(provider: string, app: App, token: string) | Refused(rejection: Rejection)

  /** All of `provider`, `appid` and `token` are present. */
  predicate HasRequiredFields(e: Entity) {
    e.provider.Some? && e.appid.Some? && e.token.Some?
  }

  /**
   * The checks of `newTokenHandler`, in source order: a readable body; the three
   * required fields (400); no client access to the root app unless configured (403);
   * a known app (400).
   */
  function Admit(body: Option<Entity>, env: Env): (r: Admission)
    ensures r.Refused? ==> r.rejection.status in {400, 403}
    ensures body.Some? && !HasRequiredFields(body.value) ==> r == Refused(Rejection(400, MissingParamsMessage))
    ensures r.Refused? && r.rejection.status == 403 <==>
      body.Some? && HasRequiredFields(body.value) && IsRoot(body.value.appid, env.rootAppIdentifier) && !env.clientsCanAccessRootApp
    ensures r.Admitted? <==>
      && body.Some? && HasRequiredFields(body.value)
      && (!IsRoot(body.value.appid, env.rootAppIdentifier) || env.clientsCanAccessRootApp)
      && body.value.appid.value in env.apps
    ensures r.Admitted? ==>
      r.app == env.apps[body.value.appid.value] && r.provider == body.value.provider.value && r.token == body.value.token.value
  {
    if body.None? then Refused(Rejection(400, BadBodyMessage))
    else
      var e := body.value;
      if !HasRequiredFields(e) then Refused(Rejection(400, MissingParamsMessage))
      else if IsRoot(e.appid, env.rootAppIdentifier) && !env.clientsCanAccessRootApp then
        Refused(Rejection(403, RootForbiddenMessage(e.appid.value, e.provider.value)))
      else if e.appid.value !in env.apps then Refused(Rejection(400, UnknownAppMessage))
      else Admitted(e.provider.value, env.apps[e.appid.value], e.token.value)
  }

  /** `isMetaLogin` defaults to true: only an explicit `false` turns session bookkeeping off. */
  predicate TracksSession(body: Option<Entity>) {
    body.None? || body.value.isMetaLogin != Flag(false)
  }

  /** The success handler: the token in the body and, glued to "Bearer", in `Authorization`. */
  method SuccessHandler(res: Response, user: User, token: Claims, env: Env)
    modifies res
    ensures res.status == 200 && res.body == Issued(env.serialize(token), user)
    ensures res.headers == old(res.headers)[AuthorizationHeader := "Bearer" + env.serialize(token)]
  {
    res.SetHeader(AuthorizationHeader, "Bearer" + env.serialize(token));
    res.status, res.body := 200, Issued(env.serialize(token), user);
  }

  /** What the provider dispatch and the chosen exchange decide, over the store before the call. */
  function ExchangeOutcome(users: seq<User>, metaUsers: seq<MetaUser>, app: App, provider: string, accessToken: string, env: Env): Exchange {
    match ProviderOf(provider)
    case None => NoAttempt
    case Some(p) =>
      if p == Password then PasswordExchange(users, metaUsers, app, Some(accessToken), env.auth, env.matches, env.newUserId)
      else env.externalExchange(p)
  }

  /** Provider dispatch followed by the chosen exchange (`getOrCreateUser` in the filter). */
  method GetOrCreateUser(app: App, provider: string, accessToken: string, env: Env, store: UserStore) returns (r: Exchange)
    modifies store
    ensures r == ExchangeOutcome(old(store.users), old(store.metaUsers), app, provider, accessToken, env)
    ensures ProviderOf(provider) == Some(Password) ==>
      r == PasswordExchange(old(store.users), old(store.metaUsers), app, Some(accessToken), env.auth, env.matches, env.newUserId)
    ensures ProviderOf(provider).None? ==> r == NoAttempt
    ensures ProviderOf(provider).Some? && ProviderOf(provider) != Some(Password) ==>
      r == env.externalExchange(ProviderOf(provider).value)
    ensures store.users ==
      if ProviderOf(provider) == Some(Password) && r.Authenticated? && r.route == Registration
      then old(store.users) + [r.user] else old(store.users)
    ensures store.metaUsers == old(store.metaUsers)
  {
    var p := ProviderOf(provider);
    if p == Some(Password) {
      r := store.GetOrCreateUser(app, Some(accessToken), env.auth, env.matches, env.newUserId);
    } else if p.Some? {
      r := env.externalExchange(p.value);
    } else {
      r := NoAttempt;
    }
  }

  /** The exchange a new-token request runs: none when the request is refused. */
  function NewTokenExchange(req: Request, env: Env, users: seq<User>, metaUsers: seq<MetaUser>): Exchange {
    var admission := Admit(req.body, env);
    if admission.Refused? then NoAttempt
    else ExchangeOutcome(users, metaUsers, admission.app, admission.provider, admission.token, env)
  }

  /** The request is admitted and its exchange yields an active user. */
  predicate LoginSucceeds(req: Request, env: Env, users: seq<User>, metaUsers: seq<MetaUser>) {
    var ex := NewTokenExchange(req, env, users, metaUsers);
    Admit(req.body, env).Admitted? && ex.Authenticated? && ex.user.active
  }

  /** A new-token request answered with a token: the login succeeds and signing works. */
  predicate NewTokenAccepted(req: Request, env: Env, users: seq<User>, metaUsers: seq<MetaUser>) {
    LoginSucceeds(req, env, users, metaUsers) && env.signerOk
  }

  /**
   * The ledger after a new-token request: a tracked successful login invalidates the
   * client class's live sessions and, when a token is signed, records its session.
   */
  function NewTokenLedger(req: Request, env: Env, users: seq<User>, metaUsers: seq<MetaUser>, records: seq<MetaLogin>): seq<MetaLogin> {
    var admission := Admit(req.body, env);
    if admission.Refused? then records
    else LoginLedger(req, env, admission.app, NewTokenExchange(req, env, users, metaUsers), records)
  }

  /** The users after a new-token request: auto-registration by password adds one. */
  function NewTokenUsers(req: Request, env: Env, users: seq<User>, metaUsers: seq<MetaUser>): seq<User> {
    var admission := Admit(req.body, env);
    var ex := NewTokenExchange(req, env, users, metaUsers);
    if admission.Admitted? && ProviderOf(admission.provider) == Some(Password) && ex.Authenticated? && ex.route == Registration
    then users + [ex.user] else users
  }

  /**
   * `newTokenHandler`. A refused request gets Admit's status and message; a failed
   * exchange gets a 400 with its message; no user or an inactive one gets a 400 naming
   * the provider; a failed signing falls through to the final 400. Otherwise the user the
   * exchange returned is answered with a token minted for it. The ledger and the users
   * change exactly as `NewTokenLedger` and `NewTokenUsers` describe.
   */
  method NewTokenHandler(req: Request, env: Env, store: UserStore, ledger: Ledger, res: Response) returns (ok: bool, principal: Option<User>)
    modifies store, ledger, res
    ensures Admit(req.body, env).Refused? ==>
      && !ok && res.status == Admit(req.body, env).rejection.status
      && res.body == Message(Admit(req.body, env).rejection.message)
    ensures ok <==> NewTokenAccepted(req, env, old(store.users), old(store.metaUsers))
    ensures ok ==>
      var app := Admit(req.body, env).app;
      var user := NewTokenExchange(req, env, old(store.users), old(store.metaUsers)).user;
      var token := env.serialize(Mint(user, app, env.now));
      && principal == Some(user)
      && res.status == 200 && res.body == Issued(token, user)
      && AuthorizationHeader in res.headers && res.headers[AuthorizationHeader] == "Bearer" + token
    ensures !ok ==> principal.None? && res.status in {400, 403}
    ensures Admit(req.body, env).Admitted? ==>
      var ex := NewTokenExchange(req, env, old(store.users), old(store.metaUsers));
      && (ex.Failed? ==> res.status == 400 && res.body == Message(ex.message))
      && (ex.NoAttempt? || (ex.Authenticated? && !ex.user.active) ==>
            res.status == 400 && res.body == Message(InactiveUserMessage(Admit(req.body, env).provider)))
      && (LoginSucceeds(req, env, old(store.users), old(store.metaUsers)) && !env.signerOk ==>
            res.status == 400 && res.body == Message(MissingParamsMessage))
      && AppIdHeader in res.headers && res.headers[AppIdHeader] == Admit(req.body, env).app.identifier
    ensures ledger.records == NewTokenLedger(req, env, old(store.users), old(store.metaUsers), old(ledger.records))
    ensures store.users == NewTokenUsers(req, env, old(store.users), old(store.metaUsers))
    ensures store.metaUsers == old(store.metaUsers)
  {
    var admission := Admit(req.body, env);
    if admission.Refused? {
      res.ReturnStatus(admission.rejection.status, admission.rejection.message);
      return false, None;
    }
    ok, principal := LoginToApp(req, env, admission.app, admission.provider, admission.token, store, ledger, res);
  }

  /**
   * The part of `newTokenHandler` that runs once the app is found: the `APP_ID` header,
   * the exchange, and the answer to its outcome.
   */
  method LoginToApp(req: Request, env: Env, app: App, provider: string, token: string, store: UserStore, ledger: Ledger, res: Response)
    returns (ok: bool, principal: Option<User>)
    modifies store, ledger, res
    ensures var ex := ExchangeOutcome(old(store.users), old(store.metaUsers), app, provider, token, env);
      && (ok <==> ex.Authenticated? && ex.user.active && env.signerOk)
      && (ok ==>
            var jwt := env.serialize(Mint(ex.user, app, env.now));
            && principal == Some(ex.user)
            && res.status == 200 && res.body == Issued(jwt, ex.user)
            && AuthorizationHeader in res.headers && res.headers[AuthorizationHeader] == "Bearer" + jwt)
      && (!ok ==> principal.None? && res.status == 400)
      && (ex.Failed? ==> res.body == Message(ex.message))
      && (ex.NoAttempt? || (ex.Authenticated? && !ex.user.active) ==> res.body == Message(InactiveUserMessage(provider)))
      && (ex.Authenticated? && ex.user.active && !env.signerOk ==> res.body == Message(MissingParamsMessage))
      && ledger.records == LoginLedger(req, env, app, ex, old(ledger.records))
    ensures AppIdHeader in res.headers && res.headers[AppIdHeader] == app.identifier
    ensures var ex := ExchangeOutcome(old(store.users), old(store.metaUsers), app, provider, token, env);
      store.users ==
        if ProviderOf(provider) == Some(Password) && ex.Authenticated? && ex.route == Registration
        then old(store.users) + [ex.user] else old(store.users)
    ensures store.metaUsers == old(store.metaUsers)
  {
    res.SetHeader(AppIdHeader, app.identifier);
    var exchange := GetOrCreateUser(app, provider, token, env, store);
    ok, principal := AnswerExchange(req, env, app, provider, exchange, ledger, res);
  }

  /**
   * The ledger after the exchange: an active user with session bookkeeping has the
   * client class's live sessions invalidated and, when a token is signed, a new one
   * recorded.
   */
  function LoginLedger(req: Request, env: Env, app: App, ex: Exchange, records: seq<MetaLogin>): seq<MetaLogin> {
    if ex.Authenticated? && ex.user.active && TracksSession(req.body) then
      var agent := GetClientAgent(req.userAgent, env.detectors);
      if env.signerOk then Issue(records, env.newMetaLoginId, app.appid, ex.user.id, ex.user.name, agent, env.now)
      else InvalidateClient(records, app.appid, ex.user.id, agent, env.now)
    else records
  }

  /** The answer of `newTokenHandler` to the exchange's outcome `ex`. */
  method AnswerExchange(req: Request, env: Env, app: App, provider: string, ex: Exchange, ledger: Ledger, res: Response)
    returns (ok: bool, principal: Option<User>)
    modifies ledger, res
    ensures ok <==> ex.Authenticated? && ex.user.active && env.signerOk
    ensures ok ==>
      var jwt := env.serialize(Mint(ex.user, app, env.now));
      && principal == Some(ex.user)
      && res.status == 200 && res.body == Issued(jwt, ex.user)
      && res.headers == old(res.headers)[AuthorizationHeader := "Bearer" + jwt]
    ensures !ok ==> principal.None? && res.status == 400 && res.headers == old(res.headers)
    ensures ex.Failed? ==> res.body == Message(ex.message)
    ensures ex.NoAttempt? || (ex.Authenticated? && !ex.user.active) ==> res.body == Message(InactiveUserMessage(provider))
    ensures ex.Authenticated? && ex.user.active && !env.signerOk ==> res.body == Message(MissingParamsMessage)
    ensures ledger.records == LoginLedger(req, env, app, ex, old(ledger.records))
  {
    principal := None;
    if ex.Failed? {
      // the exception's message, as a bad request
      res.ReturnStatus(400, ex.message);
      return false, principal;
    }
    if ex.NoAttempt? || !ex.user.active {
      res.ReturnStatus(400, InactiveUserMessage(provider));
      return false, principal;
    }
    var user := ex.user;
    var newJWT: Option<Claims>;
    if TracksSession(req.body) {
      var agent := GetClientAgent(req.userAgent, env.detectors);
      newJWT := GetJWToken(ledger, app, user, agent, env);
    } else {
      newJWT := GenerateJWToken(user, app, env);
    }
    if newJWT.Some? {
      SuccessHandler(res, user, newJWT.value, env);
      return true, Some(user);
    }
    // a null token falls through to the final bad-request response
    res.ReturnStatus(400, MissingParamsMessage);
    return false, principal;
  }

  // ---------------------------------------------------------------------------
  // Refresh and revoke
  // ---------------------------------------------------------------------------

  /** The request's token is a known user's, and the authentication manager accepts it. */
  predicate AuthenticatedUserToken(req: Request, env: Env, users: seq<User>, records: seq<MetaLogin>) {
    var jwt := TokenFromRequest(req, env, users, records);
    jwt.Some? && jwt.value.user.Some? && env.authenticates
  }

  /** A refresh answered with a new token: an authenticated user's token, and signing works. */
  predicate RefreshAccepted(req: Request, env: Env, users: seq<User>, records: seq<MetaLogin>) {
    AuthenticatedUserToken(req, env, users, records) && env.signerOk
  }

  /** The ledger after a revocation: the caller's client class loses its live sessions. */
  function RevokeLedger(req: Request, env: Env, users: seq<User>, records: seq<MetaLogin>): seq<MetaLogin> {
    if AuthenticatedUserToken(req, env, users, records) then
      var jwt := TokenFromRequest(req, env, users, records).value;
      InvalidateClient(records, jwt.app.appid, jwt.user.value.id, GetClientAgent(req.userAgent, env.detectors), env.now)
    else records
  }

  /**
   * `refreshTokenHandler`: a fresh token for the user of a valid token. It reads the
   * ledger but never writes it, so the refreshed token has no session record of its own.
   */
  method RefreshTokenHandler(req: Request, env: Env, users: seq<User>, ledger: Ledger, res: Response) returns (ok: bool)
    modifies res
    ensures ok <==> RefreshAccepted(req, env, users, ledger.records)
    ensures var jwt := TokenFromRequest(req, env, users, ledger.records);
      ok ==> res.status == 200 && res.body == Issued(env.serialize(Mint(jwt.value.user.value, jwt.value.app, env.now)), jwt.value.user.value)
    ensures !ok ==>
      && res.status == 401 && res.body == Message(ReauthenticateMessage)
      && WwwAuthenticateHeader in res.headers && res.headers[WwwAuthenticateHeader] == InvalidTokenChallenge
  {
    var jwtAuth := GetJWTfromRequest(req, env, users, ledger, res);
    if jwtAuth.Some? && jwtAuth.value.user.Some? && env.authenticates {
      var user := jwtAuth.value.user.value;
      res.SetHeader(AppIdHeader, jwtAuth.value.app.identifier);
      var newToken := GenerateJWToken(user, jwtAuth.value.app, env);
      if newToken.Some? {
        SuccessHandler(res, user, newToken.value, env);
        return true;
      }
    }
    res.SetHeader(WwwAuthenticateHeader, InvalidTokenChallenge);
    res.ReturnStatus(401, ReauthenticateMessage);
    return false;
  }

  /**
   * `revokeAllTokensHandler`: for the user of a valid token, invalidates the live
   * sessions of the client class the request comes from (not of every device).
   */
  method RevokeAllTokensHandler(req: Request, env: Env, users: seq<User>, ledger: Ledger, res: Response) returns (ok: bool)
    modifies ledger, res
    ensures ok <==> AuthenticatedUserToken(req, env, users, old(ledger.records))
    ensures ledger.records == RevokeLedger(req, env, users, old(ledger.records))
    ensures var jwt := TokenFromRequest(req, env, users, old(ledger.records));
      ok ==>
        && res.status == 200 && res.body == Message(RevokedMessage(jwt.value.user.value.id))
        && ledger.records == InvalidateClient(old(ledger.records), jwt.value.app.appid, jwt.value.user.value.id,
                                              GetClientAgent(req.userAgent, env.detectors), env.now)
    ensures !ok ==>
      && res.status == 401 && res.body == Message(InvalidTokenMessage)
      && WwwAuthenticateHeader in res.headers && res.headers[WwwAuthenticateHeader] == BearerChallenge
      && ledger.records == old(ledger.records)
  {
    var jwtAuth := GetJWTfromRequest(req, env, users, ledger, res);
    if jwtAuth.Some? && jwtAuth.value.user.Some? && env.authenticates {
      var user := jwtAuth.value.user.value;
      var app := jwtAuth.value.app;
      var agent := GetClientAgent(req.userAgent, env.detectors);
      var metaLogins := ledger.FindTerms(ClientQuery(app.appid, user.id, agent));
      ledger.InvalidateLive(metaLogins, env.now);
      res.SetHeader(AppIdHeader, app.identifier);
      res.ReturnStatus(200, RevokedMessage(user.id));
      return true;
    }
    res.SetHeader(WwwAuthenticateHeader, BearerChallenge);
    res.ReturnStatus(401, InvalidTokenMessage);
    return false;
  }

  // ---------------------------------------------------------------------------
  // The ledger invariant across requests
  // ---------------------------------------------------------------------------

  /** A login keeps the ledger invariant, whatever its outcome. */
  lemma NewTokenKeepsInvariant(req: Request, env: Env, users: seq<User>, metaUsers: seq<MetaUser>, records: seq<MetaLogin>)
    requires LiveIsNewest(records)
    ensures LiveIsNewest(NewTokenLedger(req, env, users, metaUsers, records))
  {
    var admission := Admit(req.body, env);
    var ex := NewTokenExchange(req, env, users, metaUsers);
    if admission.Admitted? && ex.Authenticated? && ex.user.active && TracksSession(req.body) {
      var agent := GetClientAgent(req.userAgent, env.detectors);
      if env.signerOk {
        IssueKeepsInvariant(records, env.newMetaLoginId, admission.app.appid, ex.user.id, ex.user.name, agent, env.now);
      } else {
        InvalidateClientKeepsInvariant(records, admission.app.appid, ex.user.id, agent, env.now);
      }
    }
  }

  /**
   * Single session per client class: after an accepted, tracked login the session it
   * recorded is the one live session of its app, user and client class.
   */
  lemma NewTokenLeavesOneLive(req: Request, env: Env, users: seq<User>, metaUsers: seq<MetaUser>, records: seq<MetaLogin>)
    requires LiveIsNewest(records)
    requires NewTokenAccepted(req, env, users, metaUsers) && TracksSession(req.body)
    ensures var rs' := NewTokenLedger(req, env, users, metaUsers, records);
      var q := ClientQuery(Admit(req.body, env).app.appid, NewTokenExchange(req, env, users, metaUsers).user.id,
                           GetClientAgent(req.userAgent, env.detectors));
      && |rs'| == |records| + 1 && IsLive(rs'[|records|]) && Matches(rs'[|records|], q)
      && forall i :: 0 <= i < |rs'| && Matches(rs'[i], q) && IsLive(rs'[i]) ==> i == |records|
  {
    var app := Admit(req.body, env).app;
    var user := NewTokenExchange(req, env, users, metaUsers).user;
    var agent := GetClientAgent(req.userAgent, env.detectors);
    IssueLeavesOneLive(records, env.newMetaLoginId, app.appid, user.id, user.name, agent, env.now);
  }

  /** A revocation keeps the ledger invariant. */
  lemma RevokeKeepsInvariant(req: Request, env: Env, users: seq<User>, records: seq<MetaLogin>)
    requires LiveIsNewest(records)
    ensures LiveIsNewest(RevokeLedger(req, env, users, records))
  {
    if AuthenticatedUserToken(req, env, users, records) {
      var jwt := TokenFromRequest(req, env, users, records).value;
      InvalidateClientKeepsInvariant(records, jwt.app.appid, jwt.user.value.id, GetClientAgent(req.userAgent, env.detectors), env.now);
    }
  }

  /** An accepted revocation leaves the caller's client class with no live session. */
  lemma RevokeEndsClientSessions(req: Request, env: Env, users: seq<User>, records: seq<MetaLogin>)
    requires LiveIsNewest(records) && AuthenticatedUserToken(req, env, users, records)
    ensures var jwt := TokenFromRequest(req, env, users, records).value;
      var q := ClientQuery(jwt.app.appid, jwt.user.value.id, GetClientAgent(req.userAgent, env.detectors));
      var rs' := RevokeLedger(req, env, users, records);
      |rs'| == |records| && forall i :: 0 <= i < |rs'| && Matches(rs'[i], q) ==> !IsLive(rs'[i])
  {
    var jwt := TokenFromRequest(req, env, users, records).value;
    var agent := GetClientAgent(req.userAgent, env.detectors);
    var q := ClientQuery(jwt.app.appid, jwt.user.value.id, agent);
    var rs' := RevokeLedger(req, env, users, records);
    InvalidateClientKillsKey(records, jwt.app.appid, jwt.user.value.id, agent, env.now);
    forall i | 0 <= i < |rs'| && Matches(rs'[i], q)
      ensures !IsLive(rs'[i])
    {
      assert SameButFailTime(records[i], rs'[i]);
      assert Matches(records[i], q);
    }
  }

  // ---------------------------------------------------------------------------
  // doFilter
  // ---------------------------------------------------------------------------

  /** The handler each verb selects on the authentication endpoint. */
  datatype Handler = NewToken | Refresh | Revoke

  function HandlerFor(verb: string): Option<Handler> {
    if verb == "POST" then Some(NewToken)
    else if verb == "GET" then Some(Refresh)
    else if verb == "DELETE" then Some(Revoke)
    else None
  }

  /**
   * The authentication-endpoint branch of `doFilter`: POST issues, GET refreshes,
   * DELETE revokes, and any other verb does nothing at all.
   */
  method RouteAuthEndpoint(req: Request, env: Env, store: UserStore, ledger: Ledger, res: Response) returns (handler: Option<Handler>)
    modifies store, ledger, res
    ensures handler == HandlerFor(req.verb)
    ensures handler == Some(NewToken) ==>
      && ledger.records == NewTokenLedger(req, env, old(store.users), old(store.metaUsers), old(ledger.records))
      && store.users == NewTokenUsers(req, env, old(store.users), old(store.metaUsers))
      && (res.status == 200 <==> NewTokenAccepted(req, env, old(store.users), old(store.metaUsers)))
      && res.status in {200, 400, 403}
    ensures handler == Some(Refresh) ==>
      && ledger.records == old(ledger.records) && store.users == old(store.users)
      && (res.status == 200 <==> RefreshAccepted(req, env, old(store.users), old(ledger.records)))
      && res.status in {200, 401}
    ensures handler == Some(Revoke) ==>
      && ledger.records == RevokeLedger(req, env, old(store.users), old(ledger.records)) && store.users == old(store.users)
      && (res.status == 200 <==> AuthenticatedUserToken(req, env, old(store.users), old(ledger.records)))
      && res.status in {200, 401}
    ensures handler.None? ==>
      && res.status == old(res.status) && res.headers == old(res.headers) && res.body == old(res.body)
      && ledger.records == old(ledger.records) && store.users == old(store.users)
    ensures LiveIsNewest(old(ledger.records)) ==> LiveIsNewest(ledger.records)
    ensures store.metaUsers == old(store.metaUsers)
  {
    handler := HandlerFor(req.verb);
    if handler == Some(NewToken) {
      if LiveIsNewest(ledger.records) {
        NewTokenKeepsInvariant(req, env, store.users, store.metaUsers, ledger.records);
      }
      var _, _ := NewTokenHandler(req, env, store, ledger, res);
    } else if handler == Some(Refresh) {
      var _ := RefreshTokenHandler(req, env, store.users, ledger, res);
    } else if handler == Some(Revoke) {
      if LiveIsNewest(ledger.records) {
        RevokeKeepsInvariant(req, env, store.users, ledger.records);
      }
      var _ := RevokeAllTokensHandler(req, env, store.users, ledger, res);
    }
  }

  /**
   * The token gate for a REST request with no authentication yet: no usable token earns
   * a `Bearer` challenge, a token the authentication manager rejects an `invalid_token`
   * challenge, and an accepted one is installed in the security context.
   */
  method GateRestRequest(req: Request, env: Env, users: seq<User>, ledger: Ledger, res: Response, ctx: SecurityContext)
    requires ctx.authentication.None?
    modifies res, ctx
    ensures var jwt := TokenFromRequest(req, env, users, ledger.records);
      && (jwt.None? ==> ctx.authentication.None? && WwwAuthenticateHeader in res.headers && res.headers[WwwAuthenticateHeader] == BearerChallenge)
      && (jwt.Some? && env.authenticates ==> ctx.authentication == jwt)
      && (jwt.Some? && !env.authenticates ==>
            ctx.authentication.None? && WwwAuthenticateHeader in res.headers && res.headers[WwwAuthenticateHeader] == InvalidTokenChallenge)
  {
    // validate token if present
    var jwt := GetJWTfromRequest(req, env, users, ledger, res);
    if jwt.Some? {
      if env.authenticates {
        ctx.authentication := jwt;
      } else {
        res.SetHeader(WwwAuthenticateHeader, InvalidTokenChallenge);
      }
    } else {
      res.SetHeader(WwwAuthenticateHeader, BearerChallenge);
    }
  }

  /**
   * `doFilter`. On the authentication endpoint the verb picks a handler and the chain
   * is never continued. Elsewhere the chain always continues, and only an
   * unauthenticated REST request passes the token gate first.
   */
  method DoFilter(req: Request, env: Env, store: UserStore, ledger: Ledger, res: Response, ctx: SecurityContext)
    returns (continued: bool, handler: Option<Handler>)
    modifies store, ledger, res, ctx
    ensures continued <==> !req.isAuthEndpoint
    ensures handler == if req.isAuthEndpoint then HandlerFor(req.verb) else None
    ensures handler == Some(NewToken) ==>
      && ledger.records == NewTokenLedger(req, env, old(store.users), old(store.metaUsers), old(ledger.records))
      && store.users == NewTokenUsers(req, env, old(store.users), old(store.metaUsers))
      && (res.status == 200 <==> NewTokenAccepted(req, env, old(store.users), old(store.metaUsers)))
      && res.status in {200, 400, 403}
    ensures handler == Some(Refresh) ==>
      && ledger.records == old(ledger.records) && store.users == old(store.users)
      && (res.status == 200 <==> RefreshAccepted(req, env, old(store.users), old(ledger.records)))
      && res.status in {200, 401}
    ensures handler == Some(Revoke) ==>
      && ledger.records == RevokeLedger(req, env, old(store.users), old(ledger.records)) && store.users == old(store.users)
      && (res.status == 200 <==> AuthenticatedUserToken(req, env, old(store.users), old(ledger.records)))
      && res.status in {200, 401}
    ensures handler.None? ==> ledger.records == old(ledger.records) && store.users == old(store.users)
    ensures req.isAuthEndpoint ==> ctx.authentication == old(ctx.authentication)
    ensures req.isAuthEndpoint && handler.None? ==> res.status == old(res.status) && res.headers == old(res.headers) && res.body == old(res.body)
    ensures LiveIsNewest(old(ledger.records)) ==> LiveIsNewest(ledger.records)
    ensures !req.isAuthEndpoint && (!req.isRestRequest || old(ctx.authentication).Some?) ==>
      ctx.authentication == old(ctx.authentication) && res.headers == old(res.headers)
    ensures !req.isAuthEndpoint && req.isRestRequest && old(ctx.authentication).None? ==>
      var jwt := TokenFromRequest(req, env, store.users, ledger.records);
      && (jwt.None? ==> ctx.authentication.None? && WwwAuthenticateHeader in res.headers && res.headers[WwwAuthenticateHeader] == BearerChallenge)
      && (jwt.Some? && env.authenticates ==> ctx.authentication == jwt)
      && (jwt.Some? && !env.authenticates ==>
            ctx.authentication.None? && WwwAuthenticateHeader in res.headers && res.headers[WwwAuthenticateHeader] == InvalidTokenChallenge)
    ensures store.metaUsers == old(store.metaUsers)
  {
    if req.isAuthEndpoint {
      handler := RouteAuthEndpoint(req, env, store, ledger, res);
      return false, handler;
    }
    handler := None;
    if req.isRestRequest && ctx.authentication.None? {
      GateRestRequest(req, env, store.users, ledger, res, ctx);
    }
    continued := true;
  }
}
