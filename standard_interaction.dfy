/**
 * `StandardInteractionClient`: the request preparation shared by the browser's popup,
 * redirect and silent-iframe flows — the authorization URL request, the PKCE-bound code
 * request, the logout request — and the validation of the state that comes back in the
 * response hash.
 */
module StandardInteraction {
  import opened Wrappers
  import opened AuthErrors
  import opened CredentialCache
  import opened BrowserStorage
  import opened JsStrings

  datatype InteractionType = Redirect | Popup | Silent

  /** The library's own part of the `state` parameter. */
  datatype BrowserStateObject = BrowserStateObject(interactionType: InteractionType)

  datatype ResponseMode = Query | Fragment | FormPost

  /** The parameters of an authorization response, as deserialized from a hash. */
  datatype ServerAuthorizationCodeResponse = ServerAuthorizationCodeResponse(
    code: Option<string>,
    state: Option<string>,
    error: Option<string>)

  datatype PkceCodes = PkceCodes(verifier: string, challenge: string)

  const S256_CODE_CHALLENGE_METHOD: string := "S256"

  /** A URI option that may be left out, set to `null`, or set to a string (possibly empty). */
  datatype UriSetting = Unset | NullUri | Uri(value: string)

  /** The option holds a non-empty string, so JavaScript treats it as true. */
  predicate TruthyUri(u: UriSetting) {
    u.Uri? && u.value != ""
  }

  datatype EndSessionRequest = EndSessionRequest(
    correlationId: Option<string>,
    postLogoutRedirectUri: UriSetting,
    account: Option<AccountInfo>,
    authority: Option<string>)

  datatype CommonEndSessionRequest = CommonEndSessionRequest(
    correlationId: string,
    postLogoutRedirectUri: UriSetting,
    account: Option<AccountInfo>,
    authority: Option<string>)

  /** A popup, redirect or silent request as the application passes it. */
  datatype InteractiveRequest = InteractiveRequest(
    scopes: seq<string>,
    authority: Option<string>,
    correlationId: Option<string>,
    redirectUri: Option<string>,
    state: Option<string>,
    nonce: Option<string>,
    account: Option<AccountInfo>,
    loginHint: Option<string>)

  /** The fields the base-request initializer resolves. */
  datatype BaseRequest = BaseRequest(authority: string, correlationId: string, scopes: seq<string>)

  datatype AuthorizationUrlParams = AuthorizationUrlParams(
    authority: string,
    correlationId: string,
    scopes: seq<string>,
    redirectUri: string,
    state: string,
    nonce: string,
    responseMode: ResponseMode,
    account: Option<AccountInfo>,
    loginHint: Option<string>)

  /** The request the authorization URL is built from; the PKCE fields are set on it later. */
  class AuthorizationUrlRequest {
    var params: AuthorizationUrlParams
    var codeChallenge: Option<string>
    var codeChallengeMethod: Option<string>

    constructor (params: AuthorizationUrlParams)
      ensures this.params == params && codeChallenge.None? && codeChallengeMethod.None?
    {
      this.params := params;
      codeChallenge := None;
      codeChallengeMethod := None;
    }
  }

  /** The code-redemption request: a copy of the URL request plus the code and the verifier. */
  datatype AuthorizationCodeRequest = AuthorizationCodeRequest(
    urlParams: AuthorizationUrlParams,
    codeChallenge: Option<string>,
    codeChallengeMethod: Option<string>,
    code: string,
    codeVerifier: string)

  /**
   * The helpers of the browser library this client calls but that are not part of the model.
   * `setRequestState` also takes the random identifier the crypto layer would generate.
   */
  datatype BrowserCollaborators = BrowserCollaborators(
    getDeserializedHash: string -> ServerAuthorizationCodeResponse,
    extractBrowserRequestState: string -> Option<BrowserStateObject>,
    setRequestState: (string, BrowserStateObject, string) -> string,
    getAbsoluteUrl: (string, string) -> string,
    getRedirectUri: Option<string> -> string,
    initializeBaseRequest: InteractiveRequest -> BaseRequest)

  /**
   * `validateAndExtractStateFromHash`: the hash must carry a state, the state must parse,
   * and the interaction it was issued for must be the one now running; checked in that order.
   */
  function ValidateAndExtractStateFromHash(hash: string, interactionType: InteractionType, u: BrowserCollaborators)
    : (r: Result<string, BrowserAuthError>)
    ensures r.Success? <==>
      Truthy(u.getDeserializedHash(hash).state)
      && u.extractBrowserRequestState(u.getDeserializedHash(hash).state.value).Some?
      && u.extractBrowserRequestState(u.getDeserializedHash(hash).state.value).value.interactionType == interactionType
    ensures r.Success? ==> u.getDeserializedHash(hash).state == Some(r.value) && r.value != ""
    ensures r == Failure(HashDoesNotContainState) <==> !Truthy(u.getDeserializedHash(hash).state)
    ensures r == Failure(UnableToParseState) <==>
      Truthy(u.getDeserializedHash(hash).state)
      && u.extractBrowserRequestState(u.getDeserializedHash(hash).state.value).None?
    ensures r == Failure(StateInteractionTypeMismatch) <==>
      Truthy(u.getDeserializedHash(hash).state)
      && u.extractBrowserRequestState(u.getDeserializedHash(hash).state.value).Some?
      && u.extractBrowserRequestState(u.getDeserializedHash(hash).state.value).value.interactionType != interactionType
  {
    var serverParams := u.getDeserializedHash(hash);
    if !Truthy(serverParams.state) then Failure(HashDoesNotContainState)
    else
      var platformState := u.extractBrowserRequestState(serverParams.state.value);
      if platformState.None? then Failure(UnableToParseState)
      else if platformState.value.interactionType != interactionType then Failure(StateInteractionTypeMismatch)
      else Success(serverParams.state.value)
  }

  /**
   * A state issued for one interaction comes back accepted by that interaction and rejected
   * as a mismatch by any other, provided the state codec round-trips it.
   */
  lemma IssuedStateValidates(
    u: BrowserCollaborators, hash: string, userState: string, issuedFor: InteractionType,
    libraryStateId: string, validatedBy: InteractionType)
    requires u.getDeserializedHash(hash).state == Some(u.setRequestState(userState, BrowserStateObject(issuedFor), libraryStateId))
    requires u.setRequestState(userState, BrowserStateObject(issuedFor), libraryStateId) != ""
    requires u.extractBrowserRequestState(u.setRequestState(userState, BrowserStateObject(issuedFor), libraryStateId))
      == Some(BrowserStateObject(issuedFor))
    ensures ValidateAndExtractStateFromHash(hash, validatedBy, u)
      == if validatedBy == issuedFor
         then Success(u.setRequestState(userState, BrowserStateObject(issuedFor), libraryStateId))
         else Failure(StateInteractionTypeMismatch)
  {
  }

  /**
   * The authorization URL parameters `initializeAuthorizationRequest` builds: base fields from
   * the base-request initializer, the resolved redirect URI, a state bound to the interaction
   * type, the caller's nonce or a fresh one, a fragment response, the caller's account or the
   * active one, and the legacy login hint only when there is neither a hint nor an account.
   */
  function AuthorizationParams(
    request: InteractiveRequest, interactionType: InteractionType, newGuid: string, libraryStateId: string,
    activeAccount: Option<AccountInfo>, legacyLoginHint: Option<string>, u: BrowserCollaborators)
    : (p: AuthorizationUrlParams)
    ensures p.authority == u.initializeBaseRequest(request).authority
    ensures p.correlationId == u.initializeBaseRequest(request).correlationId
    ensures p.scopes == u.initializeBaseRequest(request).scopes
    ensures p.redirectUri == u.getRedirectUri(request.redirectUri)
    ensures p.state == u.setRequestState(OrElse(request.state, ""), BrowserStateObject(interactionType), libraryStateId)
    ensures Truthy(request.nonce) ==> p.nonce == request.nonce.value
    ensures !Truthy(request.nonce) ==> p.nonce == newGuid
    ensures p.responseMode == Fragment
    ensures request.account.Some? ==> p.account == request.account
    ensures request.account.None? ==> p.account == activeAccount
    ensures Truthy(request.loginHint) || p.account.Some? || !Truthy(legacyLoginHint) ==> p.loginHint == request.loginHint
    ensures !Truthy(request.loginHint) && p.account.None? && Truthy(legacyLoginHint) ==> p.loginHint == legacyLoginHint
  {
    var base := u.initializeBaseRequest(request);
    var account := if request.account.Some? then request.account else activeAccount;
    AuthorizationUrlParams(
      base.authority, base.correlationId, base.scopes,
      u.getRedirectUri(request.redirectUri),
      u.setRequestState(OrElse(request.state, ""), BrowserStateObject(interactionType), libraryStateId),
      OrElse(request.nonce, newGuid),
      Fragment,
      account,
      if !Truthy(request.loginHint) && account.None? && Truthy(legacyLoginHint) then legacyLoginHint else request.loginHint)
  }

  /** The request entry written for a request: a missing login hint is stored as "". */
  function CacheEntryFor(p: AuthorizationUrlParams): (e: RequestCacheEntry)
    ensures e.state == p.state && e.nonce == p.nonce && e.authority == p.authority && e.account == p.account
    ensures Truthy(p.loginHint) ==> e.loginHint == p.loginHint.value
    ensures !Truthy(p.loginHint) ==> e.loginHint == ""
  {
    RequestCacheEntry(p.state, p.nonce, p.authority, OrElse(p.loginHint, ""), p.account)
  }

  /**
   * The state an authorization request carries is accepted when its response comes back to
   * the same interaction, and rejected as a mismatch by any other, provided the hash carries
   * that state and the state codec round-trips it.
   */
  lemma AuthorizationStateValidates(
    request: InteractiveRequest, issuedFor: InteractionType, newGuid: string, libraryStateId: string,
    activeAccount: Option<AccountInfo>, legacyLoginHint: Option<string>, u: BrowserCollaborators,
    hash: string, validatedBy: InteractionType)
    requires u.getDeserializedHash(hash).state
      == Some(AuthorizationParams(request, issuedFor, newGuid, libraryStateId, activeAccount, legacyLoginHint, u).state)
    requires AuthorizationParams(request, issuedFor, newGuid, libraryStateId, activeAccount, legacyLoginHint, u).state != ""
    requires u.extractBrowserRequestState(AuthorizationParams(request, issuedFor, newGuid, libraryStateId, activeAccount, legacyLoginHint, u).state)
      == Some(BrowserStateObject(issuedFor))
    ensures ValidateAndExtractStateFromHash(hash, validatedBy, u).Success? <==> validatedBy == issuedFor
    ensures validatedBy != issuedFor ==> ValidateAndExtractStateFromHash(hash, validatedBy, u) == Failure(StateInteractionTypeMismatch)
  {
    IssuedStateValidates(u, hash, OrElse(request.state, ""), issuedFor, libraryStateId, validatedBy);
  }

  class StandardInteractionClient {
    /** The configured `auth.postLogoutRedirectUri`. */
    const postLogoutRedirectUri: UriSetting
    const browserStorage: BrowserCacheManager
    /** The page the application is on. */
    const currentUri: string
    const u: BrowserCollaborators

    constructor (postLogoutRedirectUri: UriSetting, browserStorage: BrowserCacheManager, currentUri: string, u: BrowserCollaborators)
      ensures this.postLogoutRedirectUri == postLogoutRedirectUri && this.browserStorage == browserStorage
      ensures this.currentUri == currentUri && this.u == u
    {
      this.postLogoutRedirectUri := postLogoutRedirectUri;
      this.browserStorage := browserStorage;
      this.currentUri := currentUri;
      this.u := u;
    }

    /**
     * `initializeAuthorizationCodeRequest`: one generated PKCE pair serves both requests —
     * the verifier goes into the code request, the challenge (method S256) onto the URL
     * request. The code request copies the URL request as it was before the challenge was set.
     */
    method InitializeAuthorizationCodeRequest(request: AuthorizationUrlRequest, pkce: PkceCodes)
      returns (r: AuthorizationCodeRequest)
      modifies request`codeChallenge, request`codeChallengeMethod
      ensures r.urlParams == request.params
      ensures r.codeChallenge == old(request.codeChallenge) && r.codeChallengeMethod == old(request.codeChallengeMethod)
      ensures r.code == "" && r.codeVerifier == pkce.verifier
      ensures request.codeChallenge == Some(pkce.challenge)
      ensures request.codeChallengeMethod == Some(S256_CODE_CHALLENGE_METHOD)
    {
      r := AuthorizationCodeRequest(request.params, request.codeChallenge, request.codeChallengeMethod, "", pkce.verifier);
      request.codeChallenge := Some(pkce.challenge);
      request.codeChallengeMethod := Some(S256_CODE_CHALLENGE_METHOD);
    }

    /**
     * `initializeLogoutRequest`: refused while an interaction is in progress. Otherwise the
     * request's own correlation id wins over a fresh one, and the post-logout redirect is, in
     * order: suppressed by an explicit `null` on the request, the request's URI, suppressed by
     * a `null` in the configuration, the configured URI, or else the current page — each made
     * absolute against the current page.
     */
    method InitializeLogoutRequest(logoutRequest: Option<EndSessionRequest>, newGuid: string)
      returns (r: Result<CommonEndSessionRequest, BrowserAuthError>)
      ensures browserStorage.interactionInProgress <==> r == Failure(InteractionInProgress)
      ensures r.Success? ==>
        r.value.correlationId ==
          (if logoutRequest.Some? && logoutRequest.value.correlationId.Some?
           then logoutRequest.value.correlationId.value else newGuid)
      ensures r.Success? && logoutRequest.Some? ==>
        r.value.account == logoutRequest.value.account && r.value.authority == logoutRequest.value.authority
      ensures r.Success? && logoutRequest.None? ==> r.value.account.None? && r.value.authority.None?
      ensures r.Success? && logoutRequest.Some? && logoutRequest.value.postLogoutRedirectUri == NullUri ==>
        r.value.postLogoutRedirectUri == NullUri
      ensures r.Success? && logoutRequest.Some? && TruthyUri(logoutRequest.value.postLogoutRedirectUri) ==>
        r.value.postLogoutRedirectUri == Uri(u.getAbsoluteUrl(logoutRequest.value.postLogoutRedirectUri.value, currentUri))
      ensures r.Success? && (logoutRequest.None? || !(logoutRequest.value.postLogoutRedirectUri.NullUri? || TruthyUri(logoutRequest.value.postLogoutRedirectUri))) ==>
        r.value.postLogoutRedirectUri ==
          if postLogoutRedirectUri == NullUri then (if logoutRequest.Some? then logoutRequest.value.postLogoutRedirectUri else Unset)
          else if TruthyUri(postLogoutRedirectUri) then Uri(u.getAbsoluteUrl(postLogoutRedirectUri.value, currentUri))
          else Uri(u.getAbsoluteUrl(currentUri, currentUri))
    {
      if browserStorage.interactionInProgress {
        return Failure(InteractionInProgress);
      }
      var valid := match logoutRequest
        case None => CommonEndSessionRequest(newGuid, Unset, None, None)
        case Some(lr) => CommonEndSessionRequest(lr.correlationId.GetOr(newGuid), lr.postLogoutRedirectUri, lr.account, lr.authority);
      if logoutRequest.None? || logoutRequest.value.postLogoutRedirectUri != NullUri {
        if logoutRequest.Some? && TruthyUri(logoutRequest.value.postLogoutRedirectUri) {
          valid := valid.(postLogoutRedirectUri := Uri(u.getAbsoluteUrl(logoutRequest.value.postLogoutRedirectUri.value, currentUri)));
        } else if postLogoutRedirectUri == NullUri {
        } else if TruthyUri(postLogoutRedirectUri) {
          valid := valid.(postLogoutRedirectUri := Uri(u.getAbsoluteUrl(postLogoutRedirectUri.value, currentUri)));
        } else {
          valid := valid.(postLogoutRedirectUri := Uri(u.getAbsoluteUrl(currentUri, currentUri)));
        }
      }
      r := Success(valid);
    }

    /**
     * `initializeAuthorizationRequest`: builds the request `AuthorizationParams` describes and
     * records its state, nonce, authority, login hint and account in the cache.
     */
    method InitializeAuthorizationRequest(request: InteractiveRequest, interactionType: InteractionType, newGuid: string, libraryStateId: string)
      returns (v: AuthorizationUrlRequest)
      modifies browserStorage`requestEntries
      ensures fresh(v) && v.codeChallenge.None? && v.codeChallengeMethod.None?
      ensures v.params == AuthorizationParams(request, interactionType, newGuid, libraryStateId,
        browserStorage.activeAccount, browserStorage.legacyLoginHint, u)
      ensures browserStorage.requestEntries == old(browserStorage.requestEntries) + [CacheEntryFor(v.params)]
    {
      var redirectUri := u.getRedirectUri(request.redirectUri);
      var state := u.setRequestState(OrElse(request.state, ""), BrowserStateObject(interactionType), libraryStateId);
      var base := u.initializeBaseRequest(request);
      var params := AuthorizationUrlParams(
        base.authority, base.correlationId, base.scopes, redirectUri, state,
        OrElse(request.nonce, newGuid), Fragment, request.account, request.loginHint);
      var account := if request.account.Some? then request.account else browserStorage.activeAccount;
      if account.Some? {
        params := params.(account := account);
      }
      if !Truthy(params.loginHint) && account.None? {
        var legacyLoginHint := browserStorage.legacyLoginHint;
        if Truthy(legacyLoginHint) {
          params := params.(loginHint := legacyLoginHint);
        }
      }
      browserStorage.UpdateCacheEntries(params.state, params.nonce, params.authority, OrElse(params.loginHint, ""), params.account);
      v := new AuthorizationUrlRequest(params);
    }

    /**
     * `preflightInteractiveRequest`: refuses to start while another interaction holds the
     * browser, leaving the cache untouched; otherwise initializes the request.
     */
    method PreflightInteractiveRequest(request: InteractiveRequest, interactionType: InteractionType, newGuid: string, libraryStateId: string)
      returns (r: Result<AuthorizationUrlRequest, BrowserAuthError>)
      modifies browserStorage`requestEntries
      ensures browserStorage.interactionInProgress <==> r == Failure(InteractionInProgress)
      ensures r.Failure? ==> browserStorage.requestEntries == old(browserStorage.requestEntries)
      ensures r.Success? ==>
        fresh(r.value)
        && r.value.params == AuthorizationParams(request, interactionType, newGuid, libraryStateId,
             browserStorage.activeAccount, browserStorage.legacyLoginHint, u)
        && browserStorage.requestEntries == old(browserStorage.requestEntries) + [CacheEntryFor(r.value.params)]
    {
      if browserStorage.interactionInProgress {
        return Failure(InteractionInProgress);
      }
      var v := InitializeAuthorizationRequest(request, interactionType, newGuid, libraryStateId);
      r := Success(v);
    }
  }
}
