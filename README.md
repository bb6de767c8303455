# Session-bound JWT gateway and password exchange

This project models two pieces of the Para server's security layer, in Dafny.

**The JWT gateway** is `JWTRestfulAuthFilter`. It issues, refreshes and revokes JSON Web Tokens on the authentication endpoint. It also checks the bearer token of every other REST request.

Unlike stock Para, this gateway binds each token to a *session record* ("metaLogin") in a ledger. The ledger holds one record per login: app, user, client class (`PC`, `Mobile` or `MicroMessenger`), the token's not-before time (`loginTime`), and `failTime`, which is 0 while the session is live.

- A new login invalidates the live sessions of the same app, user and client class, then records a new live session.
- A token is accepted only while a live session with its not-before time exists.
- Revocation invalidates the caller's client class only.

**The password exchange** is `PasswordAuthFilter`. It turns an access token `email:name:password` into a user. The user is found by a linked identity (a phone number or a login id), then by identifier, or is created by auto-registration.

Modules:

- `SessionLedger` holds the ledger. The pure functions `Page`, `Invalidate`, `InvalidateClient`, `Issue` and `Validate` specify it. The class `Ledger` is the persisted store: a `seq` of records that its methods update.
- `JwtGateway` holds the request handlers and `doFilter`, as methods over a `Ledger`, a `UserStore`, a `Response` and a `SecurityContext`.
- `PasswordAuth` holds the access-token parser, `isPhone` (as written, which the exchange uses, and corrected), the decision function `PasswordExchange`, and the class `UserStore`, whose `GetOrCreateUser` method mirrors the source step by step.
- `ClientAgent` and `Providers` hold the user-agent classifier and the case-insensitive provider dispatch.
- `JavaStrings` holds the parts of `String` and `StringUtils` the filters rely on: `trim`, `contains`, `isBlank`, `split(sep, 3)` and `equalsIgnoreCase`.
- `Apps` and `Wrappers` hold the app record, `Option`, and the first-match lookup.

Specification functions that carry no contract of their own:

- `SessionLedger.Matches` is the term query of `getMetaLogins`.
- `SessionLedger.Validate` says some record on the first page of the token query is live.
- `SessionLedger.LiveIsNewest` is the ledger invariant: a live record never has a newer active record with the same key.
- `JwtGateway.HandlerFor` is the verb routing.
- `JwtGateway.TracksSession`: `isMetaLogin` is absent, null or true.
- `PasswordAuth.IsPhoneNumber` is the intended phone-number test; `PasswordAuth.PassesPhoneCheck` is what the test as written accepts.
- `JavaStrings.StrippedAround` says every character outside a range is at most U+0020.
- `JwtGateway.ExchangeOutcome` is the provider dispatch followed by the chosen exchange; `JwtGateway.NewTokenExchange` is that exchange for a new-token request.
- `JwtGateway.LoginSucceeds`, `JwtGateway.NewTokenAccepted`, `JwtGateway.AuthenticatedUserToken` and `JwtGateway.RefreshAccepted` are the success conditions of the three handlers.
- `JwtGateway.NewTokenLedger`, `JwtGateway.LoginLedger`, `JwtGateway.NewTokenUsers` and `JwtGateway.RevokeLedger` are the state each handler leaves.

Where the written design and the code differ, the model follows the code:

- Revocation invalidates only the caller's client class, not every session of the user.
- Refresh issues a token without recording a session, so a refreshed token is later rejected unless an older live session happens to share its not-before time (`JwtGateway.RefreshedTokenRejected`).
- Tokens are validated against the app's `getId()`, but sessions are filed and revoked under its `getAppid()`. Issue-then-authenticate therefore needs the two to agree, and `JwtGateway.IssuedTokenAuthenticates` requires it. For the same reason revocation has no effect on token validation when the two keys differ; `JwtGateway.RevokedTokenRejected` requires them to agree.

## Model

| member | source | states |
|---|---|---|
| JwtGateway.DoFilter | para-server/src/main/java/com/erudika/para/security/JWTRestfulAuthFilter.java:95-128 | On the auth endpoint the chain is never continued and the security context is untouched. POST leaves the ledger `NewTokenLedger`, the users `NewTokenUsers`, and answers 200 iff `NewTokenAccepted`, otherwise 400 or 403. GET leaves ledger and users alone and answers 200 iff `RefreshAccepted`, otherwise 401. DELETE leaves the ledger `RevokeLedger` and answers 200 iff `AuthenticatedUserToken`, otherwise 401. Any other verb changes nothing. Every request keeps the ledger invariant `LiveIsNewest`. Elsewhere the chain always continues. An unauthenticated REST request gets `WWW-Authenticate: Bearer` when it has no usable token, `Bearer error="invalid_token"` when authentication is refused, and otherwise has its token's authentication installed. |
| JwtGateway.RouteAuthEndpoint | para-server/src/main/java/com/erudika/para/security/JWTRestfulAuthFilter.java:100-108 | POST runs new-token: the ledger becomes `NewTokenLedger`, the users `NewTokenUsers`, and the status is 200 iff `NewTokenAccepted`, otherwise 400 or 403. GET runs refresh: ledger and users unchanged, 200 iff `RefreshAccepted`, otherwise 401. DELETE runs revoke: the ledger becomes `RevokeLedger`, 200 iff `AuthenticatedUserToken`, otherwise 401. Any other verb changes nothing. Each branch keeps the ledger invariant `LiveIsNewest`. |
| JwtGateway.GateRestRequest | para-server/src/main/java/com/erudika/para/security/JWTRestfulAuthFilter.java:109-125 | For a request with no authentication: no token gives a `Bearer` challenge; a token refused by the authentication manager gives an `invalid_token` challenge; an accepted token's authentication is installed. |
| JwtGateway.Admit | para-server/src/main/java/com/erudika/para/security/JWTRestfulAuthFilter.java:131-195 | The new-token checks in source order. Any missing field gives 400 with the missing-parameters message. 403 happens exactly for a root app without `clients_can_access_root_app`. The request is admitted exactly when all fields are present, the root check passes and the app exists. Every refusal is a 400 or a 403. |
| JwtGateway.NewTokenHandler | para-server/src/main/java/com/erudika/para/security/JWTRestfulAuthFilter.java:130-196 | A refused request answers with Admit's status and message. Success (200, `ok`) holds iff the request is admitted, the exchange yields an active user and signing works. The principal and the `Issued` body are then that user and the token minted for it now, and `Authorization` is "Bearer" glued to that token. A failed exchange answers 400 with its message; no user or an inactive one answers 400 naming the provider; a failed signing answers the final 400. `APP_ID` is set for every admitted request. The ledger becomes `NewTokenLedger` (for a tracked active login: `Issue`, or only `InvalidateClient` when signing fails) and the users `NewTokenUsers`. |
| JwtGateway.LoginToApp | para-server/src/main/java/com/erudika/para/security/JWTRestfulAuthFilter.java:147-180 | Once the app is found: `APP_ID` is set to its identifier; the outcome is the provider dispatch's exchange on the store before the call; 200 iff that outcome is an active user and signing works, with that user's token, otherwise 400 with the exception's message, the inactive-user message or the final message; the ledger becomes `LoginLedger` of the outcome; a user is added only by password auto-registration. |
| JwtGateway.AnswerExchange | para-server/src/main/java/com/erudika/para/security/JWTRestfulAuthFilter.java:151-178 | For a given exchange outcome: 200 with the user and its freshly minted token iff the user is active and signing works; the three 400 answers otherwise; the ledger becomes `LoginLedger` (`Issue` when tracked and signed, `InvalidateClient` when tracked and not signed, unchanged otherwise). |
| JwtGateway.GetOrCreateUser | para-server/src/main/java/com/erudika/para/security/JWTRestfulAuthFilter.java:405-433 | Returns exactly `ExchangeOutcome` of the store before the call. "password" (any case) runs the password exchange on the store and adds a user only when it registers one. The other known providers give their own outcome and add no user. An unknown name gives no user (`null`). |
| JwtGateway.GetJWToken | para-server/src/main/java/com/erudika/para/security/JWTRestfulAuthFilter.java:198-219 | The token is minted iff signing works. The ledger becomes `Issue` (invalidate the live sessions of the client key, then append a live record whose loginTime is the token's not-before). If signing fails, only the invalidation happens. |
| JwtGateway.ValidateToken | para-server/src/main/java/com/erudika/para/security/JWTRestfulAuthFilter.java:257-281 | The early-return loop answers exactly `Validate`: some record on the first page of the (app, user, loginTime) query, ignoring client class, has failTime 0. |
| JwtGateway.TokenFromRequest | para-server/src/main/java/com/erudika/para/security/JWTRestfulAuthFilter.java:372-403 | No result when the token names no known app. For a known app: a subject that is not a user of the app gives a super token with those claims and no ledger check; a known user is accepted iff `Validate` holds for (app.id, user, not-before), and then with that user, claims and app. A result always comes from a value containing "Bearer" whose trimmed tail parses to its claims. |
| JwtGateway.TokenApp | para-server/src/main/java/com/erudika/para/security/JWTRestfulAuthFilter.java:377-384 | An app is reported iff the value carries "Bearer", its tail parses, and the claims' `appid` names a known app; the app reported is that one. |
| JwtGateway.GetJWTfromRequest | para-server/src/main/java/com/erudika/para/security/JWTRestfulAuthFilter.java:372-403 | Returns exactly `TokenFromRequest` on the current ledger. Sets `APP_ID` exactly when the token names a known app, and changes nothing else in the response. |
| JwtGateway.HeaderTakesPrecedence | para-server/src/main/java/com/erudika/para/security/JWTRestfulAuthFilter.java:373-376 | When the `Authorization` header is present, the `Authorization` parameter has no effect. |
| JwtGateway.KnownUserNeedsLiveSession | para-server/src/main/java/com/erudika/para/security/JWTRestfulAuthFilter.java:386-388 | A token of a known user with no live matching session yields no authentication. |
| JwtGateway.SuccessHeaderParsesBack | para-server/src/main/java/com/erudika/para/security/JWTRestfulAuthFilter.java:361 | The value `"Bearer" + token` written by the success handler passes the "Bearer" check, and dropping six characters and trimming gives back the token. |
| JwtGateway.PresentedTokenParses | para-server/src/main/java/com/erudika/para/security/JWTRestfulAuthFilter.java:361-384 | A request whose `Authorization` header is "Bearer" glued to a serialized token hands the parser that token, so it names the token's app. |
| JwtGateway.IssuedTokenAuthenticates | para-server/src/main/java/com/erudika/para/security/JWTRestfulAuthFilter.java:198-219 | Right after a tracked login, presenting the minted token authenticates that user with those claims. This holds when the token library parses what it serialized and the app's id and appid agree. |
| JwtGateway.RevokedTokenRejected | para-server/src/main/java/com/erudika/para/security/JWTRestfulAuthFilter.java:309-349 | After revoking a client class under the app's `appid`, as the revoke handler does, a token of a known user whose sessions all belong to that class is rejected, under the ledger invariant (at most one live session per key, and it is the newest) and when the app's `id` and `appid` agree. |
| JwtGateway.RefreshedTokenRejected | para-server/src/main/java/com/erudika/para/security/JWTRestfulAuthFilter.java:283-307 | A refreshed token (not-before = refresh time) is rejected when every recorded login is older, because refresh records no session. |
| JwtGateway.SuccessHandler | para-server/src/main/java/com/erudika/para/security/JWTRestfulAuthFilter.java:351-370 | Answers 200 with the serialized token and the user, and sets `Authorization` to "Bearer" glued to the serialized token. |
| JwtGateway.RefreshTokenHandler | para-server/src/main/java/com/erudika/para/security/JWTRestfulAuthFilter.java:283-307 | Succeeds iff `RefreshAccepted`: the token belongs to a known user with a live session, authentication succeeds and signing works. Success answers 200 with a token minted now for that user. Failure answers 401, "User must reauthenticate.", with an `invalid_token` challenge. The ledger is not in its frame. |
| JwtGateway.RevokeAllTokensHandler | para-server/src/main/java/com/erudika/para/security/JWTRestfulAuthFilter.java:309-349 | Succeeds iff `AuthenticatedUserToken`: the token belongs to a known user with a live session and authentication succeeds. The ledger becomes `RevokeLedger`: on success the live sessions of that user's app and inferred client class only are invalidated, and the answer is 200. Failure answers 401 with a `Bearer` challenge and leaves the ledger unchanged. |
| JwtGateway.NewTokenKeepsInvariant | para-server/src/main/java/com/erudika/para/security/JWTRestfulAuthFilter.java:130-219 | Every new-token request, whatever its outcome, keeps the ledger invariant `LiveIsNewest`. |
| JwtGateway.NewTokenLeavesOneLive | para-server/src/main/java/com/erudika/para/security/JWTRestfulAuthFilter.java:156-169 | Under the invariant, an accepted tracked login appends one live record for its (app, user, client class), and that record is the only live one of the key. |
| JwtGateway.RevokeKeepsInvariant | para-server/src/main/java/com/erudika/para/security/JWTRestfulAuthFilter.java:309-349 | Every revocation request keeps the ledger invariant. |
| JwtGateway.RevokeEndsClientSessions | para-server/src/main/java/com/erudika/para/security/JWTRestfulAuthFilter.java:318-331 | Under the invariant, an accepted revocation leaves no live session for the caller's app, user and client class, even beyond the first page. |
| ClientAgent.GetClientAgent | para-server/src/main/java/com/erudika/para/security/JWTRestfulAuthFilter.java:221-230 | The class is PC iff the agent is not mobile. It is MicroMessenger iff the agent is mobile and the in-app browser is detected, so MicroMessenger implies mobile. |
| Providers.ProviderOf | para-server/src/main/java/com/erudika/para/security/JWTRestfulAuthFilter.java:405-433 | A provider is chosen only for a name equal to its key ignoring case. |
| Providers.ProviderOfIgnoresCase | para-server/src/main/java/com/erudika/para/security/JWTRestfulAuthFilter.java:405-433 | Names equal up to case select the same provider. |
| Providers.ProviderOfKey | para-server/src/main/java/com/erudika/para/security/JWTRestfulAuthFilter.java:405-433 | Every provider is reached by its own key, so no branch shadows another. |
| Providers.WechatIsUnknown | para-server/src/main/java/com/erudika/para/security/JWTRestfulAuthFilter.java:409-411 | "wechat" selects no provider. |
| SessionLedger.MatchesBelow | para-server/src/main/java/com/erudika/para/security/JWTRestfulAuthFilter.java:232-243 | Lists exactly the matching positions below n, newest first, without repeats. |
| SessionLedger.Page | para-server/src/main/java/com/erudika/para/security/JWTRestfulAuthFilter.java:242 | The first page of a query, newest first: at most 10 distinct matching positions in decreasing order. A page of fewer than 10 holds every match; a full page holds every match newer than its last entry. |
| SessionLedger.NewestMatchHeadsPage | para-server/src/main/java/com/erudika/para/security/JWTRestfulAuthFilter.java:242 | The newest matching record is the first entry of the page. |
| SessionLedger.SmallQueryFitsPage | para-server/src/main/java/com/erudika/para/security/JWTRestfulAuthFilter.java:242 | When a query has at most 10 matches, all of them are on the page. |
| SessionLedger.MatchesBelowIgnoresFailTime | para-server/src/main/java/com/erudika/para/security/JWTRestfulAuthFilter.java:232-243 | Changing only failTimes does not change which records a query finds. |
| SessionLedger.Invalidate | para-server/src/main/java/com/erudika/para/security/JWTRestfulAuthFilter.java:203-209 | Only failTime changes. Records off the page and dead records are unchanged. Every record on the page is dead afterwards, and the ones that were live carry failTime = now. |
| SessionLedger.InvalidateClient | para-server/src/main/java/com/erudika/para/security/JWTRestfulAuthFilter.java:200-209 | Each record is either unchanged, or was a live match of the (app, user, client) query and now has failTime = now. Records outside the query key are unchanged. Every record on the query's page is dead. |
| SessionLedger.Issue | para-server/src/main/java/com/erudika/para/security/JWTRestfulAuthFilter.java:198-219 | Appends one live record with loginTime = now for the key. Each old record is unchanged or was a live match now failed at now. Every record on the key's first page is dead. |
| SessionLedger.LiveIsNewestGivesAtMostOneLive | para-server/src/main/java/com/erudika/para/security/JWTRestfulAuthFilter.java:198-219 | The ledger invariant implies at most one live session per (app, user, client class). |
| SessionLedger.EmptyLiveIsNewest | para-server/src/main/java/com/erudika/para/security/JWTRestfulAuthFilter.java:198-219 | The empty ledger satisfies the invariant. |
| SessionLedger.InvalidateClientKillsKey | para-server/src/main/java/com/erudika/para/security/JWTRestfulAuthFilter.java:200-209 | Under the invariant, invalidating a key leaves no live record for that key at all, even beyond the first page. |
| SessionLedger.InvalidateClientKeepsInvariant | para-server/src/main/java/com/erudika/para/security/JWTRestfulAuthFilter.java:318-330 | Revocation preserves the invariant. |
| SessionLedger.IssueKeepsInvariant | para-server/src/main/java/com/erudika/para/security/JWTRestfulAuthFilter.java:198-219 | A new login preserves the invariant. |
| SessionLedger.IssueLeavesOneLive | para-server/src/main/java/com/erudika/para/security/JWTRestfulAuthFilter.java:198-219 | Under the invariant, after a login the new record is the only live record of its key (single live session, serial calls). |
| SessionLedger.IssueLeavesOneLiveWithinPage | para-server/src/main/java/com/erudika/para/security/JWTRestfulAuthFilter.java:198-219 | Without the invariant, the same holds when the key has at most 10 active records (the query page). |
| SessionLedger.ValidateSound | para-server/src/main/java/com/erudika/para/security/JWTRestfulAuthFilter.java:257-281 | An accepted token has a live matching session record. |
| SessionLedger.ValidateCompleteWithinPage | para-server/src/main/java/com/erudika/para/security/JWTRestfulAuthFilter.java:257-281 | A live matching record makes the token acceptable when the query has at most 10 matches. |
| SessionLedger.NoLiveRecordRejects | para-server/src/main/java/com/erudika/para/security/JWTRestfulAuthFilter.java:257-281 | Without a live matching record, the token is rejected. |
| SessionLedger.IssueThenValidate | para-server/src/main/java/com/erudika/para/security/JWTRestfulAuthFilter.java:198-219 | Right after a login, its token (not-before = now) validates. |
| SessionLedger.InvalidateThenValidateFails | para-server/src/main/java/com/erudika/para/security/JWTRestfulAuthFilter.java:318-330 | Under the invariant, after invalidating a client key, a token whose matching records all belong to that client is rejected. |
| SessionLedger.IssueThenOldTokenFails | para-server/src/main/java/com/erudika/para/security/JWTRestfulAuthFilter.java:198-219 | Under the invariant, a new login from the same client class makes the earlier token of that class invalid. |
| SessionLedger.InvalidateSparesOtherClients | para-server/src/main/java/com/erudika/para/security/JWTRestfulAuthFilter.java:318-330 | Invalidating one client class leaves a live session of another class valid (revocation is scoped by client class), when the token's matching records fit on one page. |
| SessionLedger.Ledger.InvalidateLive | para-server/src/main/java/com/erudika/para/security/JWTRestfulAuthFilter.java:203-209 | Filtering the page to live records and setting their failTime to now leaves exactly `Invalidate`. |
| SessionLedger.Ledger.Create | para-server/src/main/java/com/erudika/para/security/JWTRestfulAuthFilter.java:245-255 | Stores one new record after all existing ones. |
| PasswordAuth.ParseAccessToken | para-server/src/main/java/com/erudika/para/security/filters/PasswordAuthFilter.java:121-125 | No result iff the token is null or has no separator. The email never contains the separator. |
| PasswordAuth.ParseAccessTokenRoundTrip | para-server/src/main/java/com/erudika/para/security/filters/PasswordAuthFilter.java:121-125 | The email, name and password are the token's own text: the token is email:name (password "") or email:name:password. |
| JavaStrings.SplitLimit3 | para-server/src/main/java/com/erudika/para/security/filters/PasswordAuthFilter.java:122 | One to three parts. A single part iff there is no separator. Only the last of three parts may contain the separator. |
| JavaStrings.SplitLimit3Join | para-server/src/main/java/com/erudika/para/security/filters/PasswordAuthFilter.java:122 | Joining the parts with the separator gives the input back. |
| JavaStrings.Trim | para-server/src/main/java/com/erudika/para/security/filters/PasswordAuthFilter.java:136 | The result is a contiguous piece of the input with no character up to U+0020 at either end, and every character cut off on either side is at most U+0020. |
| JavaStrings.TrimOfTrimmed | para-server/src/main/java/com/erudika/para/security/filters/PasswordAuthFilter.java:136 | A string with no character up to U+0020 at either end is its own trim. |
| JavaStrings.SplitLimit3OfJoin | para-server/src/main/java/com/erudika/para/security/filters/PasswordAuthFilter.java:122 | Three fields joined by the separator, the first two free of it, split back into exactly those fields. |
| PasswordAuth.IsPhoneAsWritten | para-server/src/main/java/com/erudika/para/security/filters/PasswordAuthFilter.java:97-109 | The code as written accepts exactly the 11-character strings starting with '1'. |
| PasswordAuth.IsPhoneAsWrittenAcceptsLetters | para-server/src/main/java/com/erudika/para/security/filters/PasswordAuthFilter.java:102-106 | "1abcdefghij" passes the code as written but is not a phone number. |
| PasswordAuth.IsPhone | para-server/src/main/java/com/erudika/para/security/filters/PasswordAuthFilter.java:97-109 | The corrected loop accepts exactly 11 digits starting with '1'. |
| PasswordAuth.ByIdentifier | para-server/src/main/java/com/erudika/para/security/filters/PasswordAuthFilter.java:171-199 | Registration happens iff no user has the identifier and auto-registration is on or the email is the admin identifier, and registers `NewUser`. With no user and the gate closed the result is "账号不存在!". Login by identifier returns exactly the user found, active and with a matching password. A found user gives that login or "wrong account or password". Failures carry only the two source messages. |
| PasswordAuth.PasswordExchange | para-server/src/main/java/com/erudika/para/security/filters/PasswordAuthFilter.java:118-202 | No attempt iff the token does not parse. The linked-identity lookup is keyed on the phone test as written. Failures carry only "账号不存在!" or "账号或密码不正确，请重新输入!". Every non-registration login matched the password against the returned user's identifier. A registered user has the new id and active = `allow_unverified_emails`. |
| PasswordAuth.LinkedIdentityMissingFails | para-server/src/main/java/com/erudika/para/security/filters/PasswordAuthFilter.java:135-168 | A phone or login-id identifier with no active linked identity (phone when the check as written passes, login id otherwise) fails with "账号不存在!". |
| PasswordAuth.LinkedIdentityDecides | para-server/src/main/java/com/erudika/para/security/filters/PasswordAuthFilter.java:135-162 | With a linked identity, looked up by the phone check as written, and its user present, the outcome is that user if the password matches and "wrong account or password" otherwise. |
| PasswordAuth.LinkedIdentityWithoutUserFallsThrough | para-server/src/main/java/com/erudika/para/security/filters/PasswordAuthFilter.java:135-173 | A linked identity, looked up by the phone check as written, without its user falls through to the lookup by identifier with the trimmed identifier. |
| PasswordAuth.IdentifierLoginDecides | para-server/src/main/java/com/erudika/para/security/filters/PasswordAuthFilter.java:171-199 | An existing user found by email authenticates iff active with a matching password; otherwise "wrong account or password". |
| PasswordAuth.LoginIdLookedUpByPhone | para-server/src/main/java/com/erudika/para/security/filters/PasswordAuthFilter.java:97-109 | Where the two phone tests part: an 11-character login id starting with '1' that is not a phone number, held only as a login id, is refused as unknown by the exchange, while the lookup keyed on the corrected test finds its identity. |
| PasswordAuth.ElevenCharLoginIdNotFound | para-server/src/main/java/com/erudika/para/security/filters/PasswordAuthFilter.java:135-168 | An 11-character login id starting with '1', held by an identity with no phone, is refused with "账号不存在!" because it is searched among phone numbers. |
| PasswordAuth.PhoneLookupMissesLoginId | para-server/src/main/java/com/erudika/para/security/filters/PasswordAuthFilter.java:137-144 | An identity holding a value only as its login id is found by the login-id query and not by the phone query. |
| PasswordAuth.LetterLoginIdQualifies | para-server/src/main/java/com/erudika/para/security/filters/PasswordAuthFilter.java:97-109 | "1abcdefghij" is such a login id: it passes the check as written, is not a phone number, and has no separator, '@' or blank ends. |
| PasswordAuth.ParseThreeFields | para-server/src/main/java/com/erudika/para/security/filters/PasswordAuthFilter.java:121-125 | A token built from three fields, the first two without the separator, parses back to exactly those fields. |
| PasswordAuth.UserStore.GetOrCreateUser | para-server/src/main/java/com/erudika/para/security/filters/PasswordAuthFilter.java:118-202 | The step-by-step method, calling the phone check as written, returns exactly `PasswordExchange` of the store it started with. It adds a user only when it registers one, and never changes linked identities. |
| PasswordAuth.UserStore.Create | para-server/src/main/java/com/erudika/para/security/filters/PasswordAuthFilter.java:183 | Appends the new user. |
| PasswordAuth.AttemptAuthentication | para-server/src/main/java/com/erudika/para/security/filters/PasswordAuthFilter.java:70-95 | A form login yields a user only on the password endpoint, with an email containing '@' and a matching password checked against the app the `appid` parameter names (none for a root or unknown app). When those checks pass, the result is exactly `ReadUserForIdentifier` of that email in that app, or the root app. |
| PasswordAuth.FormLoginFindsRegisteredUser | para-server/src/main/java/com/erudika/para/security/filters/PasswordAuthFilter.java:81-92 | Once the checks pass, a user comes back iff one is registered under the email in that app, and it is such a user. |

## Left out

- Servlet, JSON and Spring plumbing is abstracted: request parsing, response writing, `SecurityContextHolder`. An unreadable body is modelled as a 400 with a fixed message rather than the parser's own status and text.
- `AuthenticationManager.authenticate` is one pass/fail flag (`Env.authenticates`). The authentication it returns is taken to be the token's own.
- Nimbus JWT signing, serialisation and parsing are uninterpreted functions (`Env.parse`, `Env.serialize`, `Env.signerOk`). Parsing only reads a token: signature, expiry and the `refresh` claim are checked by the authentication manager alone (`Env.authenticates`). A tampered but well-formed token therefore still sets `APP_ID` and gets a ledger lookup before the manager refuses it. The not-before time is the millisecond clock value, with no truncation to seconds.
- `System.currentTimeMillis` is one positive `now` per request, shared by the invalidation and the new record.
- `User.passwordMatches` (hash checking) is the function parameter `PasswordCheck`. `SecurityUtils.checkIfActive` and `setTenantInfo` are treated as no-ops.
- DAO internals (`findTerms`, `updateAll`, `create`) are an in-memory store. Pages are newest first, and `create()` always succeeds.
- SessionLedger.Ledger.Create: `createMetaLogin` sets neither an app nor an active flag. The model files the record under the issuing app's `appid` with active = true, which the ledger queries require.
- `App.id(…)` normalisation and `App.isRoot` details are not modelled. Apps are looked up by the string as given, and the root test is "absent or equal to the root identifier".
- Case folding and `Character.isDigit` are ASCII only. Whitespace is Java's ASCII whitespace set.
- A non-boolean `isMetaLogin` value (a cast failure, answered 400 with the exception text) is not modelled.
- Exceptions thrown by the other providers are modelled as their `Failed` outcome. Their effects on the user store are not.
- The concrete OAuth, LDAP and verification-code filters are not part of this model; only the dispatch to them is.
- Concurrent requests are not modelled. Single-live-session is stated for serial calls, where the interleaving race of two logins cannot happen.
- `IndexBasedDAOIT` is an Elasticsearch test harness with no logic to model.

## Findings

| source | as written | input that shows it | evidently intended | confidence | as-written member | corrected member |
|---|---|---|---|---|---|---|
| para-server/src/main/java/com/erudika/para/security/filters/PasswordAuthFilter.java:102-106 | the digit loop tests `value.charAt(0)` on every round, so only the length and the leading '1' are checked | a token "1abcdefghij:n:p" whose identity holds "1abcdefghij" as its login id and has no phone: the lookup runs by `phone`, finds nothing, and the login fails with "账号不存在!" | test `value.charAt(i)`: eleven digits starting with '1', so such a login id is looked up by `loginId` | high, not executed | PasswordAuth.IsPhoneAsWritten (with PasswordAuth.IsPhoneAsWrittenAcceptsLetters and PasswordAuth.LoginIdLookedUpByPhone) | PasswordAuth.IsPhone |

The exchange (`PasswordExchange`, `UserStore.GetOrCreateUser`) follows the code as written; `LoginIdLookedUpByPhone` shows that the lookup keyed on the corrected test would find the identity the code misses.
