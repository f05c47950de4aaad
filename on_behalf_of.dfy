/**
 * `OnBehalfOfClient`: the on-behalf-of exchange, which trades the caller's assertion for a
 * token through the JWT-bearer grant of section 2.1 of RFC 7523. The cache/network choice
 * has the same shape as the client-credentials one; a cache hit also reads the ID token
 * written for the same assertion and the account it belongs to.
 */
module OnBehalfOf {
  import opened Wrappers
  import opened JsStrings
  import opened AuthErrors
  import opened Scopes
  import opened CredentialCache
  import opened ClientCommon

  /** An on-behalf-of request: the common request fields and the upstream assertion. */
  datatype OnBehalfOfRequest = OnBehalfOfRequest(common: CommonRequest, oboAssertion: string)

  /** The access-token filter: no home account and no assertion, only host, type, client, tenant and scopes. */
  function AccessTokenFilter(clientId: string, authority: Authority, scopeSet: ScopeSet): CredentialFilter {
    CredentialFilter(
      homeAccountId := None,
      environment := Some(authority.hostNameAndPort),
      credentialType := Some(AccessToken),
      clientId := Some(clientId),
      realm := Some(authority.tenant),
      target := Some(PrintScopesLowerCase(scopeSet)),
      oboAssertion := None)
  }

  /** The ID-token filter: host, type, client and tenant, and the caller's assertion. */
  function IdTokenFilter(clientId: string, authority: Authority, oboAssertion: string): CredentialFilter {
    CredentialFilter(
      homeAccountId := None,
      environment := Some(authority.hostNameAndPort),
      credentialType := Some(IdToken),
      clientId := Some(clientId),
      realm := Some(authority.tenant),
      target := None,
      oboAssertion := Some(oboAssertion))
  }

  /**
   * The access-token lookup ignores the home account and the assertion a token was written
   * for, while the ID-token lookup only selects tokens written for the caller's assertion.
   */
  lemma FiltersDiffer(c: Credential, clientId: string, authority: Authority, scopeSet: ScopeSet, oboAssertion: string)
    ensures Matches(c, AccessTokenFilter(clientId, authority, scopeSet)) <==>
      c.environment == authority.hostNameAndPort && c.credentialType == AccessToken
      && c.clientId == clientId && c.realm == authority.tenant
      && c.target == PrintScopesLowerCase(scopeSet)
    ensures Matches(c, IdTokenFilter(clientId, authority, oboAssertion)) <==>
      c.environment == authority.hostNameAndPort && c.credentialType == IdToken
      && c.clientId == clientId && c.realm == authority.tenant
      && c.oboAssertion == Some(oboAssertion)
  {
  }

  /**
   * The cache decision of `getCachedAuthenticationResult`. The telemetry outcome it reports
   * is `CachedAccessTokenExpired` when there is no token and `NoCachedAccessToken` when the
   * token is expired: the reverse of what the names say, kept as the code has it.
   */
  function CheckCachedToken(token: Option<Credential>, expired: Credential -> bool): (d: CacheDecision)
    ensures d == Miss(CachedAccessTokenExpired) <==> token.None?
    ensures d == Miss(NoCachedAccessToken) <==> token.Some? && expired(token.value)
    ensures d.Hit? <==> token.Some? && !expired(token.value)
    ensures d.Hit? ==> d.token == token.value
  {
    if token.None? || expired(token.value) then
      Miss(if token.None? then CachedAccessTokenExpired else NoCachedAccessToken)
    else Hit(token.value)
  }

  /** The local account id of a cached ID token: `oid` when set, else `sub`, else empty. */
  function LocalAccountId(claims: IdTokenClaims): (id: string)
    ensures Truthy(claims.oid) ==> id == claims.oid.value
    ensures !Truthy(claims.oid) && Truthy(claims.sub) ==> id == claims.sub.value
    ensures !Truthy(claims.oid) && !Truthy(claims.sub) ==> id == ""
  {
    var localAccountId := if Truthy(claims.oid) then claims.oid else claims.sub;
    OrElse(localAccountId, "")
  }

  /** The account looked up for a cached ID token; its username is always empty. */
  function AccountInfoFor(idToken: Credential, claims: IdTokenClaims): (a: AccountInfo)
    ensures a.homeAccountId == idToken.homeAccountId && a.environment == idToken.environment
    ensures a.tenantId == idToken.realm && a.username == ""
    ensures a.localAccountId == LocalAccountId(claims)
  {
    AccountInfo(idToken.homeAccountId, idToken.environment, idToken.realm, "", LocalAccountId(claims))
  }

  /**
   * The cache-hit result for an unexpired access token: the ID token found for the
   * assertion, the account of that ID token when there is one, no refresh token and no
   * app metadata, marked as coming from the cache.
   */
  function CachedResult(accessToken: Credential, idToken: Option<Credential>, c: Collaborators): (r: AuthenticationResult)
    ensures r.FromCache? && r.fromCache
    ensures r.record.accessToken == Some(accessToken) && r.record.idToken == idToken
    ensures r.record.refreshToken.None? && r.record.appMetadata.None?
    ensures idToken.None? ==> r.record.account.None? && r.idTokenObject.None?
    ensures idToken.Some? ==>
      var claims := c.decodeIdToken(idToken.value.secret);
      r.idTokenObject == Some(claims)
      && r.record.account == c.readAccountFromCache(AccountInfoFor(idToken.value, claims))
  {
    if idToken.Some? then
      var claims := c.decodeIdToken(idToken.value.secret);
      var account := c.readAccountFromCache(AccountInfoFor(idToken.value, claims));
      FromCache(CacheRecord(account, idToken, Some(accessToken), None, None), true, Some(claims))
    else
      FromCache(CacheRecord(None, None, Some(accessToken), None, None), true, None)
  }

  function HeadParams(config: ClientConfiguration, request: OnBehalfOfRequest, guid: string, c: Collaborators): seq<Param> {
    [ Param(ClientIdKey, config.clientId),
      Param(ScopeKey, c.printScopeParam(request.common.scopes, true)),
      Param(GrantTypeKey, JWT_BEARER),
      Param(CorrelationIdKey, OrElse(request.common.correlationId, guid)),
      Param(RequestedTokenUseKey, ON_BEHALF_OF),
      Param(AssertionKey, request.oboAssertion) ]
  }

  /** The token request body of the on-behalf-of grant; it never carries claims. */
  function TokenRequestBody(config: ClientConfiguration, request: OnBehalfOfRequest, guid: string, c: Collaborators): seq<Param> {
    HeadParams(config, request, guid, c) + ClientAuthParams(config.clientCredentials)
  }

  lemma HeadParamsRead(config: ClientConfiguration, request: OnBehalfOfRequest, guid: string, c: Collaborators)
    ensures var head := HeadParams(config, request, guid, c);
      && Lookup(head, ClientIdKey) == Some(config.clientId)
      && Lookup(head, ScopeKey) == Some(c.printScopeParam(request.common.scopes, true))
      && Lookup(head, GrantTypeKey) == Some(JWT_BEARER)
      && Lookup(head, CorrelationIdKey) == Some(OrElse(request.common.correlationId, guid))
      && Lookup(head, RequestedTokenUseKey) == Some(ON_BEHALF_OF)
      && Lookup(head, AssertionKey) == Some(request.oboAssertion)
      && forall key :: key !in {ClientIdKey, ScopeKey, GrantTypeKey, CorrelationIdKey, RequestedTokenUseKey, AssertionKey} ==>
           Lookup(head, key).None?
  {
    var head := HeadParams(config, request, guid, c);
    LookupFirst(head, 0, ClientIdKey);
    LookupFirst(head, 1, ScopeKey);
    LookupFirst(head, 2, GrantTypeKey);
    LookupFirst(head, 3, CorrelationIdKey);
    LookupFirst(head, 4, RequestedTokenUseKey);
    LookupFirst(head, 5, AssertionKey);
    forall key | key !in {ClientIdKey, ScopeKey, GrantTypeKey, CorrelationIdKey, RequestedTokenUseKey, AssertionKey}
      ensures Lookup(head, key).None?
    {
      LookupAbsent(head, key);
    }
  }

  /**
   * What the token endpoint reads from the body about the grant: the JWT-bearer grant type,
   * `requested_token_use=on_behalf_of`, the caller's assertion, the client id and scopes,
   * and the caller's correlation id or else a fresh GUID.
   */
  lemma TokenRequestBodyGrant(config: ClientConfiguration, request: OnBehalfOfRequest, guid: string, c: Collaborators)
    ensures var body := TokenRequestBody(config, request, guid, c);
      && Lookup(body, GrantTypeKey) == Some(JWT_BEARER)
      && Lookup(body, RequestedTokenUseKey) == Some(ON_BEHALF_OF)
      && Lookup(body, AssertionKey) == Some(request.oboAssertion)
      && Lookup(body, ClientIdKey) == Some(config.clientId)
      && Lookup(body, ScopeKey) == Some(c.printScopeParam(request.common.scopes, true))
      && Lookup(body, CorrelationIdKey) ==
           Some(if Truthy(request.common.correlationId) then request.common.correlationId.value else guid)
  {
    var head := HeadParams(config, request, guid, c);
    var auth := ClientAuthParams(config.clientCredentials);
    HeadParamsRead(config, request, guid, c);
    LookupAppend(head, auth, GrantTypeKey);
    LookupAppend(head, auth, RequestedTokenUseKey);
    LookupAppend(head, auth, AssertionKey);
    LookupAppend(head, auth, ClientIdKey);
    LookupAppend(head, auth, ScopeKey);
    LookupAppend(head, auth, CorrelationIdKey);
  }

  /**
   * What the token endpoint reads from the body about client authentication: the secret and
   * the assertion follow the configuration as in the client-credentials grant, and no claims
   * parameter is sent.
   */
  lemma TokenRequestBodyClientAuth(config: ClientConfiguration, request: OnBehalfOfRequest, guid: string, c: Collaborators)
    ensures var body := TokenRequestBody(config, request, guid, c);
      var creds := config.clientCredentials;
      && Lookup(body, ClientSecretKey) == (if Truthy(creds.clientSecret) then creds.clientSecret else None)
      && Lookup(body, ClientAssertionKey) == (if creds.clientAssertion.Some? then Some(creds.clientAssertion.value.assertion) else None)
      && Lookup(body, ClientAssertionTypeKey) == (if creds.clientAssertion.Some? then Some(creds.clientAssertion.value.assertionType) else None)
      && Lookup(body, ClaimsKey).None?
  {
    var head := HeadParams(config, request, guid, c);
    var auth := ClientAuthParams(config.clientCredentials);
    HeadParamsRead(config, request, guid, c);
    assert Lookup(head, ClientSecretKey).None? && Lookup(head, ClaimsKey).None?;
    assert Lookup(head, ClientAssertionKey).None? && Lookup(head, ClientAssertionTypeKey).None?;
    ClientAuthParamsRead(config.clientCredentials);
    assert Lookup(auth, ClaimsKey).None?;
    LookupAppend(head, auth, ClientSecretKey);
    LookupAppend(head, auth, ClientAssertionKey);
    LookupAppend(head, auth, ClientAssertionTypeKey);
    LookupAppend(head, auth, ClaimsKey);
  }

  class OnBehalfOfClient {
    const config: ClientConfiguration
    const authority: Authority
    /** The scope set of the current request, assigned by each `acquireToken`. */
    var scopeSet: ScopeSet
    /** The last cache outcome reported to server telemetry. */
    ghost var cacheOutcome: Option<CacheOutcome>
    /** Cache lookups, timestamps and token POSTs, in the order they happened. */
    ghost var events: seq<ClientEvent>

    constructor (config: ClientConfiguration, authority: Authority)
      ensures this.config == config && this.authority == authority
      ensures scopeSet == ScopeSet([]) && cacheOutcome == None && events == []
    {
      this.config := config;
      this.authority := authority;
      scopeSet := ScopeSet([]);
      cacheOutcome := None;
      events := [];
    }

    /** The request POSTed for `request`. */
    function NetworkRequest(request: OnBehalfOfRequest, guid: string, c: Collaborators): TokenEndpointRequest {
      TokenEndpointRequest(authority.tokenEndpoint, TokenRequestBody(config, request, guid, c),
        ThumbprintOf(config.clientId, request.common))
    }

    /** `createTokenRequestBody`: fills a fresh parameter builder step by step. */
    method CreateTokenRequestBody(request: OnBehalfOfRequest, guid: string, c: Collaborators) returns (body: seq<Param>)
      ensures body == TokenRequestBody(config, request, guid, c)
    {
      var builder := new ParameterBuilder();
      builder.Add(ClientIdKey, config.clientId);
      builder.Add(ScopeKey, c.printScopeParam(request.common.scopes, true));
      builder.Add(GrantTypeKey, JWT_BEARER);
      builder.Add(CorrelationIdKey, OrElse(request.common.correlationId, guid));
      builder.Add(RequestedTokenUseKey, ON_BEHALF_OF);
      builder.Add(AssertionKey, request.oboAssertion);
      assert builder.parameters == HeadParams(config, request, guid, c);
      builder.AddClientCredentials(config.clientCredentials);
      body := builder.parameters;
    }

    /** `readAccessTokenFromCache`. */
    method ReadAccessTokenFromCache(cache: CacheStore) returns (r: Result<Option<Credential>, ClientAuthError>)
      requires cache.Valid()
      modifies this`events
      ensures r == ReadUniqueCredential(cache, AccessTokenFilter(config.clientId, authority, scopeSet))
      ensures events == old(events) + [CacheLookup(AccessTokenFilter(config.clientId, authority, scopeSet))]
    {
      var filter := AccessTokenFilter(config.clientId, authority, scopeSet);
      events := events + [CacheLookup(filter)];
      r := ReadUniqueCredential(cache, filter);
    }

    /** `readIdTokenFromCache`: the first ID token written for the caller's assertion, if any. */
    method ReadIdTokenFromCache(request: OnBehalfOfRequest, cache: CacheStore) returns (r: Option<Credential>)
      requires cache.Valid()
      modifies this`events
      ensures r == ReadFirstCredential(cache, IdTokenFilter(config.clientId, authority, request.oboAssertion))
      ensures events == old(events) + [CacheLookup(IdTokenFilter(config.clientId, authority, request.oboAssertion))]
    {
      var filter := IdTokenFilter(config.clientId, authority, request.oboAssertion);
      events := events + [CacheLookup(filter)];
      r := ReadFirstCredential(cache, filter);
    }

    /** `getCachedAuthenticationResult`: the cached result, or `None` with the telemetry outcome recorded. */
    method GetCachedAuthenticationResult(request: OnBehalfOfRequest, cache: CacheStore, now: int, c: Collaborators)
      returns (r: Result<Option<AuthenticationResult>, ClientAuthError>)
      requires cache.Valid()
      modifies this`events, this`cacheOutcome
      ensures var atFilter := AccessTokenFilter(config.clientId, authority, scopeSet);
        var idFilter := IdTokenFilter(config.clientId, authority, request.oboAssertion);
        match ReadUniqueCredential(cache, atFilter)
        case Failure(e) =>
          r == Failure(e) && cacheOutcome == old(cacheOutcome) && events == old(events) + [CacheLookup(atFilter)]
        case Success(token) =>
          match CheckCachedToken(token, Expired(c, config.tokenRenewalOffsetSeconds, now))
          case Miss(o) =>
            r == Success(None) && cacheOutcome == Some(o) && events == old(events) + [CacheLookup(atFilter)]
          case Hit(t) =>
            r == Success(Some(CachedResult(t, ReadFirstCredential(cache, idFilter), c)))
            && cacheOutcome == old(cacheOutcome)
            && events == old(events) + [CacheLookup(atFilter), CacheLookup(idFilter)]
    {
      var read := ReadAccessTokenFromCache(cache);
      if read.Failure? {
        return Failure(read.error);
      }
      var cachedAccessToken := read.value;
      var expired := Expired(c, config.tokenRenewalOffsetSeconds, now);
      if cachedAccessToken.None? || expired(cachedAccessToken.value) {
        var outcome := if cachedAccessToken.None? then CachedAccessTokenExpired else NoCachedAccessToken;
        assert CheckCachedToken(cachedAccessToken, expired) == Miss(outcome);
        cacheOutcome := Some(outcome);
        return Success(None);
      }
      assert CheckCachedToken(cachedAccessToken, expired) == Hit(cachedAccessToken.value);
      var result := CachedResultFromCache(request, cache, cachedAccessToken.value, c);
      r := Success(Some(result));
    }

    /** The cache-hit half of `getCachedAuthenticationResult`: reads the ID token and its account. */
    method CachedResultFromCache(request: OnBehalfOfRequest, cache: CacheStore, accessToken: Credential, c: Collaborators)
      returns (r: AuthenticationResult)
      requires cache.Valid()
      modifies this`events
      ensures var idFilter := IdTokenFilter(config.clientId, authority, request.oboAssertion);
        && r == CachedResult(accessToken, ReadFirstCredential(cache, idFilter), c)
        && events == old(events) + [CacheLookup(idFilter)]
    {
      var cachedIdToken := ReadIdTokenFromCache(request, cache);
      var idTokenObject: Option<IdTokenClaims> := None;
      var cachedAccount: Option<AccountEntity> := None;
      if cachedIdToken.Some? {
        var claims := c.decodeIdToken(cachedIdToken.value.secret);
        idTokenObject := Some(claims);
        var accountInfo := AccountInfoFor(cachedIdToken.value, claims);
        cachedAccount := c.readAccountFromCache(accountInfo);
      }
      r := FromCache(CacheRecord(cachedAccount, cachedIdToken, Some(accessToken), None, None), true, idTokenObject);
    }

    /** `executeTokenRequest`: builds the body, takes the timestamp, then POSTs. */
    method ExecuteTokenRequest(request: OnBehalfOfRequest, guid: string, now: int, c: Collaborators)
      returns (r: AuthenticationResult)
      modifies this`events
      ensures var req := NetworkRequest(request, guid, c);
        && events == old(events) + [RequestTimestamp(now), TokenPost(req)]
        && r == FromServer(c.post(req), now)
    {
      var requestBody := CreateTokenRequestBody(request, guid, c);
      var thumbprint := ThumbprintOf(config.clientId, request.common);
      var reqTimestamp := now;
      events := events + [RequestTimestamp(reqTimestamp)];
      var req := TokenEndpointRequest(authority.tokenEndpoint, requestBody, thumbprint);
      var response := c.post(req);
      events := events + [TokenPost(req)];
      r := FromServer(response, reqTimestamp);
    }

    /** `acquireToken`: skip the cache, or use a cached token, or go to the network exactly once. */
    method AcquireToken(request: OnBehalfOfRequest, cache: CacheStore, now: int, guid: string, c: Collaborators)
      returns (r: Result<AuthenticationResult, ClientAuthError>)
      requires cache.Valid()
      modifies this`scopeSet, this`events, this`cacheOutcome
      ensures scopeSet == FromRequest(request.common.scopes)
      ensures var atFilter := AccessTokenFilter(config.clientId, authority, scopeSet);
        var idFilter := IdTokenFilter(config.clientId, authority, request.oboAssertion);
        var req := NetworkRequest(request, guid, c);
        var network := [RequestTimestamp(now), TokenPost(req)];
        if request.common.skipCache then
          r == Success(FromServer(c.post(req), now)) && events == old(events) + network
          && cacheOutcome == old(cacheOutcome)
        else match ReadUniqueCredential(cache, atFilter)
          case Failure(e) =>
            r == Failure(e) && events == old(events) + [CacheLookup(atFilter)]
            && cacheOutcome == old(cacheOutcome)
          case Success(token) =>
            match CheckCachedToken(token, Expired(c, config.tokenRenewalOffsetSeconds, now))
            case Hit(t) =>
              r == Success(CachedResult(t, ReadFirstCredential(cache, idFilter), c))
              && events == old(events) + [CacheLookup(atFilter), CacheLookup(idFilter)]
              && cacheOutcome == old(cacheOutcome)
            case Miss(o) =>
              r == Success(FromServer(c.post(req), now)) && cacheOutcome == Some(o)
              && events == old(events) + [CacheLookup(atFilter)] + network
    {
      scopeSet := FromRequest(request.common.scopes);
      if request.common.skipCache {
        var result := ExecuteTokenRequest(request, guid, now, c);
        return Success(result);
      }
      var cached := GetCachedAuthenticationResult(request, cache, now, c);
      if cached.Failure? {
        return Failure(cached.error);
      }
      if cached.value.Some? {
        return Success(cached.value.value);
      }
      var result := ExecuteTokenRequest(request, guid, now, c);
      r := Success(result);
    }
  }
}
