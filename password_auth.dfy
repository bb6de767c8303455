/**
 * The password credential exchange (`PasswordAuthFilter`): parsing the access token
 * `email:name:password`, looking the user up by a linked identity (phone number or
 * login id) or by identifier, auto-registration, and the form-login success condition.
 */
module PasswordAuth {
  import opened Wrappers
  import opened JavaStrings
  import opened Apps

  /** `Config.SEPARATOR`. */
  const Separator: char := ':'

  /** The request path suffix the form login answers to (`PASSWORD_ACTION`). */
  const PasswordAction: string := "password_auth"

  /** Thrown when no account matches ("account does not exist"). */
  const NotFoundMessage: string := "账号不存在!"

  /** Thrown on a wrong password or an inactive account ("wrong account or password"). */
  const WrongPasswordMessage: string := "账号或密码不正确，请重新输入!"

  datatype User = User(
    id: string,
    appid: string,
    identifier: string,
    email: string,
    name: string,
    password: string,
    active: bool)

  /** A linked identity (`metaUser`): another way to name the user whose id is `parentId`. */
  datatype MetaUser = MetaUser(appid: string, parentId: string, phone: string, loginId: string, active: bool)

  /**
   * `User.passwordMatches` for a user object carrying (app, identifier, password): the
   * stored hash check itself is not part of this model.
   */
  type PasswordCheck = (Option<string>, string, string) -> bool

  /** The configuration switches the exchange reads. */
  datatype AuthConfig = AuthConfig(
    allowAutoRegisterUsers: bool,
    allowUnverifiedEmails: bool,
    adminIdent: string)

  // ---------------------------------------------------------------------------
  // The access token
  // ---------------------------------------------------------------------------

  datatype AccessToken = AccessToken(email: string, name: string, password: string)

  /**
   * `accessToken.split(SEPARATOR, 3)`: email, name and password (empty when the token
   * has only two parts); nothing when the token is null or has no separator.
   */
  function ParseAccessToken(token: Option<string>): (r: Option<AccessToken>)
    ensures r.None? <==> token.None? || Separator !in token.value
    ensures r.Some? ==> Separator !in r.value.email
  {
    if token.None? || Separator !in token.value then None
    else
      var parts := SplitLimit3(token.value, Separator);
      Some(AccessToken(parts[0], parts[1], if |parts| > 2 then parts[2] else ""))
  }

  /**
   * The parsed fields are the token's own text: the email up to the first separator,
   * the name up to the next, the password the rest (separators included).
   */
  lemma ParseAccessTokenRoundTrip(token: string)
    requires Separator in token
    ensures var t := ParseAccessToken(Some(token)).value;
      || (token == t.email + [Separator] + t.name && Separator !in t.name && t.password == "")
      || token == t.email + [Separator] + t.name + [Separator] + t.password
  {
    var parts := SplitLimit3(token, Separator);
    SplitLimit3Join(token, Separator);
    if |parts| == 2 {
      JoinTwo(parts[0], parts[1], Separator);
      assert parts == [parts[0], parts[1]];
    } else {
      JoinThree(parts[0], parts[1], parts[2], Separator);
      assert parts == [parts[0], parts[1], parts[2]];
    }
  }

  // ---------------------------------------------------------------------------
  // isPhone
  // ---------------------------------------------------------------------------

  /** What `isPhone` is meant to accept: eleven digits, the first being '1'. */
  predicate IsPhoneNumber(v: string) {
    |v| == 11 && v[0] == '1' && forall i :: 1 <= i < 11 ==> IsDigit(v[i])
  }

  /** What `isPhone` as written accepts: eleven characters, the first being '1'. */
  predicate PassesPhoneCheck(v: string) {
    |v| == 11 && v[0] == '1'
  }

  /**
   * `isPhone` as written: its loop tests `charAt(0)` on every round, so after the
   * length and first-character checks it never rejects anything.
   */
  method IsPhoneAsWritten(v: string) returns (r: bool)
    ensures r == PassesPhoneCheck(v)
  {
    if |v| != 11 || v[0] != '1' {
      return false;
    }
    var i := 1;
    while i < 11
      invariant 1 <= i <= 11
    {
      if !IsDigit(v[0]) {
        return false;
      }
      i := i + 1;
    }
    return true;
  }

  /** The letters after the leading '1' are never looked at by the code as written. */
  lemma IsPhoneAsWrittenAcceptsLetters()
    ensures PassesPhoneCheck("1abcdefghij") && !IsPhoneNumber("1abcdefghij")
  {
    var v := "1abcdefghij";
    assert !IsDigit(v[1]);
  }

  /** `isPhone` with the loop testing `charAt(i)`, as intended. */
  method IsPhone(v: string) returns (r: bool)
    ensures r == IsPhoneNumber(v)
  {
    if |v| != 11 || v[0] != '1' {
      return false;
    }
    var i := 1;
    while i < 11
      invariant 1 <= i <= 11
      invariant forall k :: 1 <= k < i ==> IsDigit(v[k])
    {
      if !IsDigit(v[i]) {
        return false;
      }
      i := i + 1;
    }
    return true;
  }

  // ---------------------------------------------------------------------------
  // Lookups in the user store
  // ---------------------------------------------------------------------------

  /** The linked-identity query: `phone` or `loginId` equal to `value`, and `active`. */
  function FindMetaUser(metaUsers: seq<MetaUser>, appid: string, byPhone: bool, value: string): Option<MetaUser> {
    First(metaUsers, (mu: MetaUser) =>
      mu.appid == appid && mu.active && (if byPhone then mu.phone == value else mu.loginId == value))
  }

  /** The `user` query by id. */
  function FindUserById(users: seq<User>, appid: string, id: string): Option<User> {
    First(users, (u: User) => u.appid == appid && u.id == id)
  }

  /** `User.readUserForIdentifier`: the user of an app registered under `identifier`. */
  function ReadUserForIdentifier(users: seq<User>, appid: string, identifier: string): Option<User> {
    First(users, (u: User) => u.appid == appid && u.identifier == identifier)
  }

  // ---------------------------------------------------------------------------
  // getOrCreateUser
  // ---------------------------------------------------------------------------

  /** Which branch authenticated the user. */
  datatype Route = LinkedIdentity | Identifier | Registration

  /** The result of `getOrCreateUser`: `null`, an authenticated user, or a thrown message. */
  datatype Exchange =
    | NoAttempt
    | Authenticated(user: User, route: Route)
    | Failed(message: string)

  /** The user auto-registration creates. */
  function NewUser(id: string, app: App, t: AccessToken, email: string, cfg: AuthConfig): User {
    User(id, app.identifier, email, email, t.name, t.password, cfg.allowUnverifiedEmails)
  }

  /**
   * The lookup by identifier and what follows it. `email` is the identifier the branch
   * before it left behind (trimmed when the linked-identity lookup ran), while the
   * lookup and the password check use the token's email as given.
   */
  function ByIdentifier(users: seq<User>, app: App, t: AccessToken, email: string, cfg: AuthConfig, matches: PasswordCheck, newId: string): (r: Exchange)
    ensures r.Failed? ==> r.message in {NotFoundMessage, WrongPasswordMessage}
    ensures r.Authenticated? && r.route == Registration <==>
      ReadUserForIdentifier(users, app.identifier, t.email).None? && (cfg.allowAutoRegisterUsers || email == cfg.adminIdent)
    ensures r.Authenticated? && r.route == Registration ==> r.user == NewUser(newId, app, t, email, cfg)
    ensures ReadUserForIdentifier(users, app.identifier, t.email).None? && !(cfg.allowAutoRegisterUsers || email == cfg.adminIdent) ==>
      r == Failed(NotFoundMessage)
    ensures r.Authenticated? && r.route == Identifier ==>
      && Some(r.user) == ReadUserForIdentifier(users, app.identifier, t.email)
      && r.user.active && matches(Some(app.identifier), t.email, t.password)
    ensures ReadUserForIdentifier(users, app.identifier, t.email).Some? ==> r.Authenticated? || r == Failed(WrongPasswordMessage)
    ensures r.Authenticated? ==> r.route != LinkedIdentity
  {
    match ReadUserForIdentifier(users, app.identifier, t.email)
    case None =>
      if cfg.allowAutoRegisterUsers || email == cfg.adminIdent then
        Authenticated(NewUser(newId, app, t, email, cfg), Registration)
      else
        Failed(NotFoundMessage)
    case Some(user) =>
      if user.active && matches(Some(app.identifier), t.email, t.password) then
        Authenticated(user, Identifier)
      else
        Failed(WrongPasswordMessage)
  }

  /** Whether the token's email sends the exchange to the linked-identity lookup. */
  predicate UsesLinkedIdentity(t: AccessToken) {
    !IsBlank(t.email) && '@' !in t.email
  }

  /** `getOrCreateUser` as a decision over the store before the call. */
  function PasswordExchange(users: seq<User>, metaUsers: seq<MetaUser>, app: App, token: Option<string>, cfg: AuthConfig, matches: PasswordCheck, newId: string): (r: Exchange)
    ensures r.NoAttempt? <==> ParseAccessToken(token).None?
    ensures r.Failed? ==> r.message in {NotFoundMessage, WrongPasswordMessage}
    ensures r.Authenticated? && r.route != Registration ==>
      matches(Some(app.identifier), r.user.identifier, ParseAccessToken(token).value.password)
    ensures r.Authenticated? && r.route == Registration ==>
      r.user.active == cfg.allowUnverifiedEmails && r.user.id == newId
  {
    match ParseAccessToken(token)
    case None => NoAttempt
    case Some(t) =>
      if UsesLinkedIdentity(t) then
        var email := Trim(t.email);
        match FindMetaUser(metaUsers, app.appid, PassesPhoneCheck(email), email)
        case None => Failed(NotFoundMessage)
        case Some(mu) =>
          match FindUserById(users, app.appid, mu.parentId)
          case Some(linked) =>
            if matches(Some(app.identifier), linked.identifier, t.password) then
              Authenticated(linked, LinkedIdentity)
            else
              Failed(WrongPasswordMessage)
          case None => ByIdentifier(users, app, t, email, cfg, matches, newId)
      else
        ByIdentifier(users, app, t, t.email, cfg, matches, newId)
  }

  /** A linked-identity login whose identity is unknown fails with "account does not exist". */
  lemma LinkedIdentityMissingFails(users: seq<User>, metaUsers: seq<MetaUser>, app: App, token: string, cfg: AuthConfig, matches: PasswordCheck, newId: string)
    requires ParseAccessToken(Some(token)).Some?
    requires var t := ParseAccessToken(Some(token)).value;
      UsesLinkedIdentity(t) && FindMetaUser(metaUsers, app.appid, PassesPhoneCheck(Trim(t.email)), Trim(t.email)).None?
    ensures PasswordExchange(users, metaUsers, app, Some(token), cfg, matches, newId) == Failed(NotFoundMessage)
  {
  }

  /**
   * A linked identity with its user present decides on the linked user's password
   * alone: the user when it matches, "wrong account or password" when it does not.
   */
  lemma LinkedIdentityDecides(users: seq<User>, metaUsers: seq<MetaUser>, app: App, token: string, cfg: AuthConfig, matches: PasswordCheck, newId: string)
    requires ParseAccessToken(Some(token)).Some?
    requires var t := ParseAccessToken(Some(token)).value;
      var mu := FindMetaUser(metaUsers, app.appid, PassesPhoneCheck(Trim(t.email)), Trim(t.email));
      UsesLinkedIdentity(t) && mu.Some? && FindUserById(users, app.appid, mu.value.parentId).Some?
    ensures var t := ParseAccessToken(Some(token)).value;
      var mu := FindMetaUser(metaUsers, app.appid, PassesPhoneCheck(Trim(t.email)), Trim(t.email)).value;
      var linked := FindUserById(users, app.appid, mu.parentId).value;
      var r := PasswordExchange(users, metaUsers, app, Some(token), cfg, matches, newId);
      && (matches(Some(app.identifier), linked.identifier, t.password) ==> r == Authenticated(linked, LinkedIdentity))
      && (!matches(Some(app.identifier), linked.identifier, t.password) ==> r == Failed(WrongPasswordMessage))
  {
  }

  /** A linked identity whose user is gone falls through to the lookup by identifier. */
  lemma LinkedIdentityWithoutUserFallsThrough(users: seq<User>, metaUsers: seq<MetaUser>, app: App, token: string, cfg: AuthConfig, matches: PasswordCheck, newId: string)
    requires ParseAccessToken(Some(token)).Some?
    requires var t := ParseAccessToken(Some(token)).value;
      var mu := FindMetaUser(metaUsers, app.appid, PassesPhoneCheck(Trim(t.email)), Trim(t.email));
      UsesLinkedIdentity(t) && mu.Some? && FindUserById(users, app.appid, mu.value.parentId).None?
    ensures var t := ParseAccessToken(Some(token)).value;
      PasswordExchange(users, metaUsers, app, Some(token), cfg, matches, newId)
        == ByIdentifier(users, app, t, Trim(t.email), cfg, matches, newId)
  {
  }

  /**
   * An email-style identifier goes straight to the lookup by identifier: an existing
   * user authenticates exactly when active with a matching password.
   */
  lemma IdentifierLoginDecides(users: seq<User>, metaUsers: seq<MetaUser>, app: App, token: string, cfg: AuthConfig, matches: PasswordCheck, newId: string)
    requires ParseAccessToken(Some(token)).Some?
    requires var t := ParseAccessToken(Some(token)).value;
      !UsesLinkedIdentity(t) && ReadUserForIdentifier(users, app.identifier, t.email).Some?
    ensures var t := ParseAccessToken(Some(token)).value;
      var user := ReadUserForIdentifier(users, app.identifier, t.email).value;
      var r := PasswordExchange(users, metaUsers, app, Some(token), cfg, matches, newId);
      && (user.active && matches(Some(app.identifier), t.email, t.password) <==> r == Authenticated(user, Identifier))
      && (r != Authenticated(user, Identifier) ==> r == Failed(WrongPasswordMessage))
  {
  }

  /**
   * Where the phone test as written and the corrected one part ways: a login id that
   * passes the check as written without being a phone number (such as "1abcdefghij")
   * is looked up by phone number. An account that holds it as its login id, with no
   * phone, is then refused as unknown, while the corrected test would look it up by
   * login id and find it.
   */
  lemma LoginIdLookedUpByPhone(users: seq<User>, metaUsers: seq<MetaUser>, app: App, login: string, name: string, password: string,
                               cfg: AuthConfig, matches: PasswordCheck, newId: string)
    requires PassesPhoneCheck(login) && !IsPhoneNumber(login)
    requires !IsWhitespace(login[0]) && !IsTrimmable(login[10]) && '@' !in login && Separator !in login && Separator !in name
    requires metaUsers == [MetaUser(app.appid, "parent", "", login, true)]
    ensures PasswordExchange(users, metaUsers, app, Some(login + [Separator] + name + [Separator] + password), cfg, matches, newId)
      == Failed(NotFoundMessage)
    ensures FindMetaUser(metaUsers, app.appid, IsPhoneNumber(login), login) == Some(metaUsers[0])
  {
    ElevenCharLoginIdNotFound(users, metaUsers, app, login, name, password, cfg, matches, newId);
    PhoneLookupMissesLoginId(metaUsers, app, login);
  }

  /**
   * An eleven-character login id starting with '1', held by an account without a phone
   * number, is refused as unknown: the exchange searches the phone numbers for it.
   */
  lemma ElevenCharLoginIdNotFound(users: seq<User>, metaUsers: seq<MetaUser>, app: App, login: string, name: string, password: string,
                                  cfg: AuthConfig, matches: PasswordCheck, newId: string)
    requires PassesPhoneCheck(login)
    requires !IsWhitespace(login[0]) && !IsTrimmable(login[10]) && '@' !in login && Separator !in login && Separator !in name
    requires metaUsers == [MetaUser(app.appid, "parent", "", login, true)]
    ensures PasswordExchange(users, metaUsers, app, Some(login + [Separator] + name + [Separator] + password), cfg, matches, newId)
      == Failed(NotFoundMessage)
  {
    var token := login + [Separator] + name + [Separator] + password;
    ParseThreeFields(login, name, password);
    var t := ParseAccessToken(Some(token)).value;
    assert t.email == login;
    assert UsesLinkedIdentity(t) by {
      assert !IsWhitespace(login[0]);
    }
    TrimOfTrimmed(login);
    PhoneLookupMissesLoginId(metaUsers, app, login);
    LinkedIdentityMissingFails(users, metaUsers, app, token, cfg, matches, newId);
  }

  /** An account holding an eleven-character login id and no phone is found by login id, not by phone. */
  lemma PhoneLookupMissesLoginId(metaUsers: seq<MetaUser>, app: App, login: string)
    requires PassesPhoneCheck(login)
    requires metaUsers == [MetaUser(app.appid, "parent", "", login, true)]
    ensures FindMetaUser(metaUsers, app.appid, false, login) == Some(metaUsers[0])
    ensures FindMetaUser(metaUsers, app.appid, true, login).None?
  {
    assert metaUsers[0].phone != login;
  }

  /** "1abcdefghij" is such a login id. */
  lemma LetterLoginIdQualifies(login: string)
    requires login == "1abcdefghij"
    ensures PassesPhoneCheck(login) && !IsPhoneNumber(login)
    ensures !IsWhitespace(login[0]) && !IsTrimmable(login[10]) && '@' !in login && Separator !in login
  {
    IsPhoneAsWrittenAcceptsLetters();
  }

  /** A token built from three fields, the first two without separators, parses back to them. */
  lemma ParseThreeFields(email: string, name: string, password: string)
    requires Separator !in email && Separator !in name
    ensures ParseAccessToken(Some(email + [Separator] + name + [Separator] + password)) == Some(AccessToken(email, name, password))
  {
    SplitLimit3OfJoin(email, name, password, Separator);
  }

  /** The store the exchange reads and, on auto-registration, writes. */
  class UserStore {
    var users: seq<User>
    var metaUsers: seq<MetaUser>

    constructor (users: seq<User>, metaUsers: seq<MetaUser>)
      ensures this.users == users && this.metaUsers == metaUsers
    {
      this.users := users;
      this.metaUsers := metaUsers;
    }

    /** `user.create()`. */
    method Create(u: User)
      modifies this
      ensures users == old(users) + [u] && metaUsers == old(metaUsers)
    {
      users := users + [u];
    }

    /**
     * `getOrCreateUser`: decides as `PasswordExchange` does on the store it started
     * with, and adds a user to the store only when it registers one.
     */
    method GetOrCreateUser(app: App, accessToken: Option<string>, cfg: AuthConfig, matches: PasswordCheck, newId: string) returns (r: Exchange)
      modifies this
      ensures r == PasswordExchange(old(users), old(metaUsers), app, accessToken, cfg, matches, newId)
      ensures metaUsers == old(metaUsers)
      ensures users == if r.Authenticated? && r.route == Registration then old(users) + [r.user] else old(users)
    {
      r := NoAttempt;
      if accessToken.None? || Separator !in accessToken.value {
        return;
      }
      var parts := SplitLimit3(accessToken.value, Separator);
      var email := parts[0];
      var name := parts[1];
      var pass := if |parts| > 2 then parts[2] else "";
      var t := AccessToken(email, name, pass);
      var appid := Some(app.identifier);
      assert ParseAccessToken(accessToken) == Some(t);

      // login by phone or loginId
      if !IsBlank(email) && '@' !in email {
        email := Trim(email);
        var byPhone := IsPhoneAsWritten(email);
        var mu := FindMetaUser(metaUsers, app.appid, byPhone, email);
        if mu.Some? {
          var linked := FindUserById(users, app.appid, mu.value.parentId);
          if linked.Some? {
            if matches(appid, linked.value.identifier, pass) {
              return Authenticated(linked.value, LinkedIdentity);
            } else {
              return Failed(WrongPasswordMessage);
            }
          }
        } else {
          return Failed(NotFoundMessage);
        }
      }

      assert PasswordExchange(users, metaUsers, app, accessToken, cfg, matches, newId)
        == ByIdentifier(users, app, t, email, cfg, matches, newId);
      var user := ReadUserForIdentifier(users, app.identifier, t.email);
      if user.None? && (cfg.allowAutoRegisterUsers || email == cfg.adminIdent) {
        var created := User(newId, app.identifier, email, email, name, pass, cfg.allowUnverifiedEmails);
        Create(created);
        r := Authenticated(created, Registration);
      } else if user.None? {
        r := Failed(NotFoundMessage);
      } else if user.value.active && matches(appid, t.email, pass) {
        r := Authenticated(user.value, Identifier);
      } else {
        r := Failed(WrongPasswordMessage);
      }
    }
  }

  // ---------------------------------------------------------------------------
  // attemptAuthentication
  // ---------------------------------------------------------------------------

  /** `requestURI.endsWith(PASSWORD_ACTION)`. */
  predicate OnPasswordEndpoint(requestUri: string) {
    |requestUri| >= |PasswordAction| && requestUri[|requestUri| - |PasswordAction|..] == PasswordAction
  }

  /**
   * The app the form login files the user object under: the identifier of the app named
   * by the `appid` parameter, unless that app is the root app or unknown.
   */
  function FormAppId(appidParam: Option<string>, apps: map<string, App>, rootAppIdentifier: string): Option<string> {
    if !IsRoot(appidParam, rootAppIdentifier) && appidParam.value in apps then Some(apps[appidParam.value].identifier) else None
  }

  /**
   * The form login: on the password endpoint, the user registered under the submitted
   * email, provided the password matches and the email contains '@'. A root or unknown
   * app leaves the user object without an app (`None`), and the lookup then runs in the
   * root app.
   */
  function AttemptAuthentication(requestUri: string, email: Option<string>, password: Option<string>, appidParam: Option<string>,
                                 apps: map<string, App>, rootAppIdentifier: string, users: seq<User>, matches: PasswordCheck): (r: Option<User>)
    ensures r.Some? ==> OnPasswordEndpoint(requestUri) && email.Some? && password.Some? && '@' in email.value
    ensures r.Some? ==> matches(FormAppId(appidParam, apps, rootAppIdentifier), email.value, password.value)
    ensures r.Some? ==>
      r == ReadUserForIdentifier(users, FormAppId(appidParam, apps, rootAppIdentifier).GetOr(rootAppIdentifier), email.value)
    ensures r.Some? ==> r.value.identifier == email.value
    ensures OnPasswordEndpoint(requestUri) && email.Some? && password.Some? && '@' in email.value
            && matches(FormAppId(appidParam, apps, rootAppIdentifier), email.value, password.value) ==>
      r == ReadUserForIdentifier(users, FormAppId(appidParam, apps, rootAppIdentifier).GetOr(rootAppIdentifier), email.value)
  {
    if !OnPasswordEndpoint(requestUri) then None
    else if email.None? || password.None? then None
    else
      var appid := FormAppId(appidParam, apps, rootAppIdentifier);
      if matches(appid, email.value, password.value) && '@' in email.value then
        ReadUserForIdentifier(users, appid.GetOr(rootAppIdentifier), email.value)
      else None
  }

  /**
   * A form login that passes the endpoint, '@' and password checks yields a user exactly
   * when one is registered under the email in the app the login runs in, and it is such
   * a user.
   */
  lemma FormLoginFindsRegisteredUser(requestUri: string, email: Option<string>, password: Option<string>, appidParam: Option<string>,
                                     apps: map<string, App>, rootAppIdentifier: string, users: seq<User>, matches: PasswordCheck)
    requires OnPasswordEndpoint(requestUri) && email.Some? && password.Some? && '@' in email.value
    requires matches(FormAppId(appidParam, apps, rootAppIdentifier), email.value, password.value)
    ensures var r := AttemptAuthentication(requestUri, email, password, appidParam, apps, rootAppIdentifier, users, matches);
      var appid := FormAppId(appidParam, apps, rootAppIdentifier).GetOr(rootAppIdentifier);
      && (r.Some? <==> exists k :: 0 <= k < |users| && users[k].appid == appid && users[k].identifier == email.value)
      && (r.Some? ==> r.value in users && r.value.appid == appid && r.value.identifier == email.value)
  {
  }
}
