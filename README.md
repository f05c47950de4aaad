# MSAL request-decision core in Dafny

This project models the decision logic at the heart of the Microsoft Authentication Library
(MSAL) for JavaScript, and proves properties of it.

**Confidential-client grants.** `ClientCredentialClient` implements the client-credentials
grant of section 4.4 of RFC 6749. `OnBehalfOfClient` implements the JWT-bearer grant of
section 2.1 of RFC 7523. Both `acquireToken` operations make the same three-way choice:
- bypass the cache when `skipCache` is set;
- return the single unexpired cached access token that matches the lookup filter;
- otherwise build the token-endpoint body and POST it, exactly once.

Both clients are Dafny classes:
- the `scopeSet` field is reassigned by `acquireToken`;
- a ghost `cacheOutcome` field records the telemetry outcome;
- a ghost `events` trace records cache lookups, the request timestamp and the POST, in order.

Each method is proved against pure functions: the lookup filters, the cache decision, the
cached result and the request body. The request body is built step by step through a
`ParameterBuilder` class and is specified as a sequence of key/value parameters. The lemmas
state what a server reading that body (first occurrence of each key) finds there.

**Credential cache.** The cache is a map from key to credential together with the keys'
insertion order, since JavaScript's `Object.keys` enumerates in that order.
`getCredentialsFilteredBy` keeps the entries whose every present filter field matches. There
are two lookup rules:
- the unique-token rule used for access tokens: no match gives none, two or more give
  `MultipleMatchingTokensInCache`, and exactly one gives that token;
- the first-token rule used for on-behalf-of ID tokens.

Both rules are stated and proved over the whole store, not over the enumerated list.

**Popup handler.** `PopupHandler` is a class over the shared `BrowserCacheManager`, whose
"interaction in progress" flag it sets and clears, and over `PopupWindow` objects, whose
`href`, `hash` and `closed` fields it changes. The same-origin monitor is timer-driven and is modelled
as one of three outcomes: reached, closed by the user, or timed out.

**Standard interaction client.** `StandardInteractionClient` prepares interactive requests:
- the authorization URL request (state, nonce, response mode, account and legacy login-hint
  defaulting, plus the cache-entry write);
- the PKCE wiring of section 4.2 of RFC 7636;
- the logout request and its post-logout redirect decision tree;
- the ordered validation of the returned `state`, which is the CSRF defence of section 10.12
  of RFC 6749.

**Oracles.** Code outside the modelled files is passed in as values: functions in the
`Collaborators` and `BrowserCollaborators` datatypes.
- The clients' collaborators:
  - expiry under the renewal offset, with the current time `now` passed in;
  - the empty-object test and the claims merge;
  - scope printing;
  - ID-token decoding;
  - the account lookup;
  - the HTTP POST.
- The browser's collaborators:
  - hash deserialization;
  - state encoding and decoding;
  - absolute URLs;
  - the redirect URI;
  - the base-request initializer.
- Fresh GUIDs and generated PKCE pairs are passed in as parameters.

JavaScript truthiness is written out: a missing string and `""` are both false (`Truthy`,
`OrElse`).

## Model

| member | source | states |
|---|---|---|
| Scopes.FromRequest | lib/msal-common/src/client/ClientCredentialClient.ts:39 | absent scopes give the empty scope set; present scopes are kept as given |
| Scopes.CaseVariantsShareTarget | lib/msal-common/src/client/ClientCredentialClient.ts:96 | two scope lists that differ only in letter case print the same lower-cased target, so they select the same cached tokens |
| CredentialCache.SelectUnique | lib/msal-common/src/client/ClientCredentialClient.ts:99-105 | on the enumerated tokens: none iff the list is empty, the multiple-matching error iff there are more than one, and otherwise the single token |
| CredentialCache.KeysInOrderCount | lib/msal-common/src/client/ClientCredentialClient.ts:99 | the keys enumerated in insertion order are distinct and are exactly as many as the matching map's keys |
| CredentialCache.LookupRule | lib/msal-common/src/client/ClientCredentialClient.ts:98-105 | over the whole store: no matching entry gives none, two matching keys give the multiple-matching error, and exactly one matching key gives that key's credential |
| CredentialCache.ReadUniqueCredential | lib/msal-common/src/client/OnBehalfOfClient.ts:115-124 | returns none iff no stored credential matches, fails iff two distinct keys match, and otherwise returns the credential of the only matching key |
| CredentialCache.FirstKeyIsEarliest | lib/msal-common/src/client/OnBehalfOfClient.ts:141 | the first key enumerated for a filtered map is a key of the insertion order, and no earlier key of that order is in the map |
| CredentialCache.SelectFirst | lib/msal-common/src/client/OnBehalfOfClient.ts:143-146 | on the enumerated ID tokens: none iff the list is empty, and otherwise the first one |
| CredentialCache.ReadFirstCredential | lib/msal-common/src/client/OnBehalfOfClient.ts:140-146 | returns none iff no stored credential matches; otherwise returns the credential of the earliest-inserted matching key, with no error for several matches |
| ClientCommon.ClientAuthParamsRead | lib/msal-common/src/client/ClientCredentialClient.ts:177-185 | the secret is sent iff one is configured, and the assertion with its type iff one is configured, independently; no other key is sent |
| ClientCommon.ParameterBuilder.AddClientCredentials | lib/msal-common/src/client/ClientCredentialClient.ts:177-185 | appends exactly the client-authentication parameters to what the builder already holds |
| ClientCommon.ThumbprintOf | lib/msal-common/src/client/ClientCredentialClient.ts:118-128 | the thumbprint carries the client id and the request's authority, scopes, authentication scheme, resource method and URI, SHR claims and SSH key fields, with no home account |
| ClientCommon.ParamNamesDistinct | lib/msal-common/src/client/ClientCredentialClient.ts:160-188 | distinct parameter keys have distinct wire names, so reading the body by key is reading it by parameter name |
| ClientCredential.CachedResult | lib/msal-common/src/client/ClientCredentialClient.ts:70-82 | the cache-hit record holds the access token alone, with no account, ID token, refresh token or app metadata, and is marked as from the cache |
| ClientCredential.AccessTokenFilterMatches | lib/msal-common/src/client/ClientCredentialClient.ts:90-97 | a credential is selected iff its home account is empty and its host, type (access token), client id, tenant and lower-cased target all match |
| ClientCredential.CheckCachedToken | lib/msal-common/src/client/ClientCredentialClient.ts:58-68 | no token gives the NO_CACHED_ACCESS_TOKEN outcome; an expired token gives CACHED_ACCESS_TOKEN_EXPIRED; only an unexpired token is a hit, and the hit carries that token |
| ClientCredential.TokenRequestBodyGrant | lib/msal-common/src/client/ClientCredentialClient.ts:160-175 | the body carries the client id, the scopes, the client_credentials grant, and the request's correlation id when it is non-empty, else the fresh GUID |
| ClientCredential.TokenRequestBodyClientAuth | lib/msal-common/src/client/ClientCredentialClient.ts:177-189 | the secret is sent iff configured and the assertion and its type iff configured; claims are sent iff the request claims are not empty or capabilities are configured |
| ClientCredential.TokenRequestBodyNoOboParams | lib/msal-common/src/client/ClientCredentialClient.ts:157-192 | the client-credentials body carries no assertion and no requested_token_use parameter |
| ClientCredential.ClientCredentialClient.CreateTokenRequestBody | lib/msal-common/src/client/ClientCredentialClient.ts:157-192 | the parameters added to a fresh builder one by one are exactly the specified token request body |
| ClientCredential.ClientCredentialClient.ReadAccessTokenFromCache | lib/msal-common/src/client/ClientCredentialClient.ts:89-106 | looks up the access-token filter of the current scope set under the unique-token rule, recording the lookup |
| ClientCredential.ClientCredentialClient.GetCachedAuthenticationResult | lib/msal-common/src/client/ClientCredentialClient.ts:56-83 | propagates the multiple-match error; on a hit returns a result holding only the access token, marked as from the cache; on a miss returns none and records the outcome |
| ClientCredential.ClientCredentialClient.ExecuteTokenRequest | lib/msal-common/src/client/ClientCredentialClient.ts:113-151 | takes the request timestamp before the single POST of the specified body, thumbprint and endpoint, and returns the server's response with that timestamp |
| ClientCredential.ClientCredentialClient.AcquireToken | lib/msal-common/src/client/ClientCredentialClient.ts:37-51 | sets the scope set from the request; with skipCache, one POST and no cache read; otherwise an error, or a cache hit with no POST, or a miss followed by exactly one POST |
| OnBehalfOf.FiltersDiffer | lib/msal-common/src/client/OnBehalfOfClient.ts:107-138 | the access-token lookup ignores the home account and the assertion; the ID-token lookup ignores the target and requires the caller's assertion |
| OnBehalfOf.CheckCachedToken | lib/msal-common/src/client/OnBehalfOfClient.ts:61-68 | a missing token records CACHED_ACCESS_TOKEN_EXPIRED and an expired one NO_CACHED_ACCESS_TOKEN, as the code has it; only an unexpired token is a hit |
| OnBehalfOf.LocalAccountId | lib/msal-common/src/client/OnBehalfOfClient.ts:75-81 | the local account id is `oid` when set, else `sub` when set, else empty |
| OnBehalfOf.AccountInfoFor | lib/msal-common/src/client/OnBehalfOfClient.ts:76-82 | the account looked up carries the ID token's home account, environment and realm, an empty username and the local account id |
| OnBehalfOf.CachedResult | lib/msal-common/src/client/OnBehalfOfClient.ts:70-99 | the account and decoded ID token are present only when an ID token was found; the refresh token and app metadata are empty; the result is marked as from the cache |
| OnBehalfOf.TokenRequestBodyGrant | lib/msal-common/src/client/OnBehalfOfClient.ts:209-230 | the body always carries the JWT-bearer grant, requested_token_use=on_behalf_of and the caller's assertion, plus the client id, the scopes and the correlation-id rule |
| OnBehalfOf.TokenRequestBodyClientAuth | lib/msal-common/src/client/OnBehalfOfClient.ts:232-242 | the secret and the assertion follow the configuration as in the client-credentials grant, and no claims parameter is sent |
| OnBehalfOf.OnBehalfOfClient.CreateTokenRequestBody | lib/msal-common/src/client/OnBehalfOfClient.ts:206-243 | the parameters added to a fresh builder one by one are exactly the specified token request body |
| OnBehalfOf.OnBehalfOfClient.ReadAccessTokenFromCache | lib/msal-common/src/client/OnBehalfOfClient.ts:106-125 | looks up the access-token filter under the unique-token rule, recording the lookup |
| OnBehalfOf.OnBehalfOfClient.ReadIdTokenFromCache | lib/msal-common/src/client/OnBehalfOfClient.ts:131-147 | looks up the ID-token filter for the caller's assertion under the first-token rule, recording the lookup |
| OnBehalfOf.OnBehalfOfClient.CachedResultFromCache | lib/msal-common/src/client/OnBehalfOfClient.ts:70-99 | reads the ID token for the assertion and builds the cache-hit result from it |
| OnBehalfOf.OnBehalfOfClient.GetCachedAuthenticationResult | lib/msal-common/src/client/OnBehalfOfClient.ts:59-100 | propagates the multiple-match error; a miss records the outcome and reads no ID token; a hit reads the ID token and returns the cached result |
| OnBehalfOf.OnBehalfOfClient.ExecuteTokenRequest | lib/msal-common/src/client/OnBehalfOfClient.ts:162-200 | takes the request timestamp before the single POST of the specified body, and returns the server's response with that timestamp |
| OnBehalfOf.OnBehalfOfClient.AcquireToken | lib/msal-common/src/client/OnBehalfOfClient.ts:40-53 | the same skip-cache, cache-hit and network-fallback choice as the client-credentials grant, with exactly one POST whenever the network is used |
| BrowserStorage.BrowserCacheManager.SetInteractionInProgress | lib/msal-browser/src/interaction_handler/PopupHandler.ts:41 | sets the interaction-in-progress flag to the given value |
| BrowserStorage.BrowserCacheManager.UpdateCacheEntries | lib/msal-browser/src/interaction_client/StandardInteractionClient.ts:253 | appends one request entry and keeps the earlier ones |
| Popup.PopupHandler.OpenPopup | lib/msal-browser/src/interaction_handler/PopupHandler.ts:44 | can only run with the interaction flag set; navigates a popup the caller passed in to the URL and returns it, or else opens a fresh, open window on the URL |
| Popup.PopupHandler.InitiateAuthRequest | lib/msal-browser/src/interaction_handler/PopupHandler.ts:37-50 | an empty URL fails with the empty-navigation-URI error, leaving the flag, the opened windows and a passed-in popup unchanged; any other URL sets the flag, then returns the passed-in popup navigated to the URL, or a fresh window opened on it |
| Popup.PopupHandler.CleanPopup | lib/msal-browser/src/interaction_handler/PopupHandler.ts:61 | the popup ends closed and the interaction flag cleared |
| Popup.PopupHandler.MonitorPopupForSameOrigin | lib/msal-browser/test/utils/PopupUtils.spec.ts:182-203 | a popup closed by the user rejects as user_cancelled, a timed-out one as a monitor timeout, each after closing the popup and clearing the flag; reaching the origin changes nothing |
| Popup.HashOutcome | lib/msal-browser/src/interaction_handler/PopupHandler.ts:63-71 | an empty hash gives the empty-hash error (with the popup's URL), a non-empty hash with known properties is returned unchanged, and any other hash gives the no-known-properties error |
| Popup.PopupHandler.MonitorPopupForHash | lib/msal-browser/src/interaction_handler/PopupHandler.ts:57-74 | on every path the popup ends closed and the flag cleared; a rejected monitor propagates its error without reading the hash; otherwise the hash is read, then cleared, then classified |
| StandardInteraction.ValidateAndExtractStateFromHash | lib/msal-browser/src/interaction_client/StandardInteractionClient.ts:150-169 | in order: no state gives the missing-state error, an unparseable state the parse error, a different interaction type the mismatch error; success iff all pass, returning the raw state |
| StandardInteraction.IssuedStateValidates | lib/msal-browser/src/interaction_client/StandardInteractionClient.ts:158-168 | a state issued for one interaction type and decoded faithfully is accepted by that interaction and rejected as a mismatch by any other |
| StandardInteraction.AuthorizationParams | lib/msal-browser/src/interaction_client/StandardInteractionClient.ts:219-251 | state bound to the interaction type and the caller's state (or ""), the caller's nonce else a fresh GUID, a fragment response, the caller's account else the active one, the legacy hint only without hint and account |
| StandardInteraction.CacheEntryFor | lib/msal-browser/src/interaction_client/StandardInteractionClient.ts:253 | the cache entry records the request's state, nonce, authority and account, and its login hint or "" |
| StandardInteraction.AuthorizationStateValidates | lib/msal-browser/src/interaction_client/StandardInteractionClient.ts:224-228 | the state an authorization request carries is accepted exactly by the interaction type it was issued for |
| StandardInteraction.StandardInteractionClient.InitializeAuthorizationCodeRequest | lib/msal-browser/src/interaction_client/StandardInteractionClient.ts:38-53 | the code request copies the URL request, with an empty code and the generated verifier; the URL request gets the challenge of the same pair and the S256 method |
| StandardInteraction.StandardInteractionClient.InitializeLogoutRequest | lib/msal-browser/src/interaction_client/StandardInteractionClient.ts:59-94 | fails iff an interaction is in progress; the request's correlation id wins over the fresh GUID; the post-logout redirect follows the five-way decision tree, made absolute against the current page |
| StandardInteraction.StandardInteractionClient.InitializeAuthorizationRequest | lib/msal-browser/src/interaction_client/StandardInteractionClient.ts:217-256 | returns a fresh request with the specified parameters and no PKCE fields, and appends its cache entry |
| StandardInteraction.StandardInteractionClient.PreflightInteractiveRequest | lib/msal-browser/src/interaction_client/StandardInteractionClient.ts:199-210 | fails iff an interaction is in progress, writing no cache entry; otherwise initializes the authorization request |

## Left out

- HTTP, crypto, time and JSON:
  - the HTTP client is the `post` oracle;
  - GUIDs and PKCE pairs are parameters;
  - `isTokenExpired` is an oracle taking `now`;
  - `setRequestState` and `extractBrowserRequestState` are oracles;
  - hash deserialization and `hashContainsKnownProperties` are oracles.
- `ResponseHandler`: response validation, caching of the server response, and result assembly
  are not modelled. A network result is the raw response plus its request timestamp, and a
  cache result is the cache record plus its from-cache flag.
- `CacheManager.getCredentialsFilteredBy` is not part of this model. Matching is assumed to be
  equality on every filter field that is present. Its real rules, such as scope-subset
  matching on `target`, are not captured.
- `CacheManager.readAccountFromCache` is an oracle.
- `ScopeSet` normalisation is not part of this model. The lower-cased target is the scopes
  joined by spaces, lower-cased in ASCII only. Trimming, de-duplication and Unicode case
  folding are not modelled.
- Server telemetry is a ghost field. Library info, throttling, client info and logging
  parameters are not sent in the modelled body.
- `createTokenRequestHeaders` and URL form-encoding are not modelled.
- `getDiscoveredAuthority`, `getClientConfiguration` and `createAuthCodeClient`
  (StandardInteractionClient.ts:101-192) are network discovery and configuration assembly,
  and are not modelled.
- PopupUtils window sizing and naming, popup-blocked errors, and the polling timer are not
  modelled. The monitor's end is an input (`MonitorOutcome`).
- `Popup.PopupHandler.MonitorPopupForSameOrigin` and `Popup.PopupHandler.CleanPopup`:
  PopupUtils is not part of this model. `cleanPopup` is assumed to close the window and clear
  the interaction flag, and the monitor is assumed to call it before rejecting.
- `Popup.PopupHandler.InitiateAuthRequest`: the popup name and window attributes of
  `PopupParams` are not modelled, and neither is giving focus to a passed-in popup.
- `StandardInteraction.StandardInteractionClient.PreflightInteractiveRequest`: the
  hidden-iframe reload check (`blockReloadInHiddenIframes`) depends on the browser frame and
  is not modelled.
- Asynchrony is not modelled. Every async method is a sequential method.
- An explicit `undefined` spread over a default is not modelled. For example, a logout request
  whose `correlationId` is present but `undefined` is treated as absent.
- `ClientCommon.ThumbprintOf`: the request thumbprint is carried as data on the POST. Its use
  for throttling is not modelled.
- `CredentialCache.ReadUniqueCredential` and `CredentialCache.ReadFirstCredential` require the
  store's key order to list each stored key once. JavaScript objects always meet this, so it is
  a representation invariant, not a demand on callers.

## Behaviour of the code worth noting

- The on-behalf-of access-token filter has no `oboAssertion` field (OnBehalfOfClient.ts:107-113).
  A cached on-behalf-of access token is therefore not tied to the caller's assertion; only the
  ID-token lookup is.
- The on-behalf-of telemetry outcome is the reverse of its names (OnBehalfOfClient.ts:65):
  - a missing token is recorded as CACHED_ACCESS_TOKEN_EXPIRED;
  - an expired token is recorded as NO_CACHED_ACCESS_TOKEN.
- The client secret and the client assertion are added independently. A client configured
  with both sends both.
