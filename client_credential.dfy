/**
 * `ClientCredentialClient`: the client-credentials grant of section 4.4 of RFC 6749 for
 * confidential clients. `acquireToken` bypasses the cache when asked to, returns a single
 * unexpired cached access token when there is one, and otherwise POSTs a token request.
 */
module ClientCredential {
  import opened Wrappers
  import opened JsStrings
  import opened AuthErrors
  import opened Scopes
  import opened CredentialCache
  import opened ClientCommon

  /** The access-token filter: app-level tokens (empty home account) of this client, host, tenant and scopes. */
  function AccessTokenFilter(clientId: string, authority: Authority, scopeSet: ScopeSet): CredentialFilter {
    CredentialFilter(
      homeAccountId := Some(""),
      environment := Some(authority.hostNameAndPort),
      credentialType := Some(AccessToken),
      clientId := Some(clientId),
      realm := Some(authority.tenant),
      target := Some(PrintScopesLowerCase(scopeSet)),
      oboAssertion := None)
  }

  /** A credential is selected exactly when it is an app-level access token for this client, host, tenant and target. */
  lemma AccessTokenFilterMatches(c: Credential, clientId: string, authority: Authority, scopeSet: ScopeSet)
    ensures Matches(c, AccessTokenFilter(clientId, authority, scopeSet)) <==>
      c.homeAccountId == "" && c.environment == authority.hostNameAndPort
      && c.credentialType == AccessToken && c.clientId == clientId
      && c.realm == authority.tenant && c.target == PrintScopesLowerCase(scopeSet)
  {
  }

  /** The cache decision of `getCachedAuthenticationResult`: use the token or report why not. */
  function CheckCachedToken(token: Option<Credential>, expired: Credential -> bool): (d: CacheDecision)
    ensures d == Miss(NoCachedAccessToken) <==> token.None?
    ensures d == Miss(CachedAccessTokenExpired) <==> token.Some? && expired(token.value)
    ensures d.Hit? <==> token.Some? && !expired(token.value)
    ensures d.Hit? ==> d.token == token.value
  {
    if token.None? then Miss(NoCachedAccessToken)
    else if expired(token.value) then Miss(CachedAccessTokenExpired)
    else Hit(token.value)
  }

  /** A cache hit carries the access token alone and is marked as coming from the cache. */
  function CachedResult(token: Credential): (r: AuthenticationResult)
    ensures r.FromCache? && r.fromCache && r.idTokenObject.None?
    ensures r.record.accessToken == Some(token)
    ensures r.record.account.None? && r.record.idToken.None?
    ensures r.record.refreshToken.None? && r.record.appMetadata.None?
  {
    FromCache(CacheRecord(None, None, Some(token), None, None), true, None)
  }

  /** Whether the claims parameter is sent: request claims that are not an empty object, or capabilities. */
  predicate SendsClaims(config: ClientConfiguration, request: CommonRequest, c: Collaborators) {
    !c.isEmptyObj(request.claims)
    || (config.clientCapabilities.Some? && |config.clientCapabilities.value| > 0)
  }

  /** The token request body of the client-credentials grant, parameter by parameter. */
  function TokenRequestBody(config: ClientConfiguration, request: CommonRequest, guid: string, c: Collaborators): seq<Param> {
    HeadParams(config, request, guid, c) + ClientAuthParams(config.clientCredentials) + ClaimsParams(config, request, c)
  }

  function HeadParams(config: ClientConfiguration, request: CommonRequest, guid: string, c: Collaborators): seq<Param> {
    [ Param(ClientIdKey, config.clientId),
      Param(ScopeKey, c.printScopeParam(request.scopes, false)),
      Param(GrantTypeKey, CLIENT_CREDENTIALS_GRANT),
      Param(CorrelationIdKey, OrElse(request.correlationId, guid)) ]
  }

  function ClaimsParams(config: ClientConfiguration, request: CommonRequest, c: Collaborators): seq<Param> {
    if SendsClaims(config, request, c)
    then [Param(ClaimsKey, c.mergeClaims(request.claims, config.clientCapabilities))]
    else []
  }

  /**
   * What the token endpoint reads from the body about the grant: the client id, the scopes,
   * the client-credentials grant type, and the caller's correlation id or else a fresh GUID.
   */
  lemma TokenRequestBodyGrant(config: ClientConfiguration, request: CommonRequest, guid: string, c: Collaborators)
    ensures var body := TokenRequestBody(config, request, guid, c);
      && Lookup(body, ClientIdKey) == Some(config.clientId)
      && Lookup(body, ScopeKey) == Some(c.printScopeParam(request.scopes, false))
      && Lookup(body, GrantTypeKey) == Some(CLIENT_CREDENTIALS_GRANT)
      && Lookup(body, CorrelationIdKey) == Some(if Truthy(request.correlationId) then request.correlationId.value else guid)
  {
    var head := HeadParams(config, request, guid, c);
    var auth := ClientAuthParams(config.clientCredentials);
    var claims := ClaimsParams(config, request, c);
    assert TokenRequestBody(config, request, guid, c) == head + (auth + claims);
    HeadParamsRead(config, request, guid, c);
    ClientAuthParamsRead(config.clientCredentials);
    ClaimsParamsRead(config, request, c);
    Lookup3(head, auth, claims, ClientIdKey);
    Lookup3(head, auth, claims, ScopeKey);
    Lookup3(head, auth, claims, GrantTypeKey);
    Lookup3(head, auth, claims, CorrelationIdKey);
  }

  /** The client-credentials body carries no on-behalf-of parameter. */
  lemma TokenRequestBodyNoOboParams(config: ClientConfiguration, request: CommonRequest, guid: string, c: Collaborators)
    ensures var body := TokenRequestBody(config, request, guid, c);
      Lookup(body, AssertionKey).None? && Lookup(body, RequestedTokenUseKey).None?
  {
    var head := HeadParams(config, request, guid, c);
    var auth := ClientAuthParams(config.clientCredentials);
    var claims := ClaimsParams(config, request, c);
    assert TokenRequestBody(config, request, guid, c) == head + (auth + claims);
    HeadParamsRead(config, request, guid, c);
    assert Lookup(head, AssertionKey).None? && Lookup(head, RequestedTokenUseKey).None?;
    ClientAuthParamsRead(config.clientCredentials);
    assert Lookup(auth, AssertionKey).None? && Lookup(auth, RequestedTokenUseKey).None?;
    ClaimsParamsRead(config, request, c);
    assert Lookup(claims, AssertionKey).None? && Lookup(claims, RequestedTokenUseKey).None?;
    Lookup3(head, auth, claims, AssertionKey);
    Lookup3(head, auth, claims, RequestedTokenUseKey);
  }

  /**
   * What the token endpoint reads from the body about client authentication and claims: the
   * secret exactly when one is configured, the assertion and its type exactly when one is
   * configured, and claims exactly when the request has claims or the client has capabilities.
   */
  lemma TokenRequestBodyClientAuth(config: ClientConfiguration, request: CommonRequest, guid: string, c: Collaborators)
    ensures var body := TokenRequestBody(config, request, guid, c);
      var creds := config.clientCredentials;
      && Lookup(body, ClientSecretKey) == (if Truthy(creds.clientSecret) then creds.clientSecret else None)
      && Lookup(body, ClientAssertionKey) == (if creds.clientAssertion.Some? then Some(creds.clientAssertion.value.assertion) else None)
      && Lookup(body, ClientAssertionTypeKey) == (if creds.clientAssertion.Some? then Some(creds.clientAssertion.value.assertionType) else None)
      && (Lookup(body, ClaimsKey).Some? <==> SendsClaims(config, request, c))
  {
    var head := HeadParams(config, request, guid, c);
    var auth := ClientAuthParams(config.clientCredentials);
    var claims := ClaimsParams(config, request, c);
    assert TokenRequestBody(config, request, guid, c) == head + (auth + claims);
    HeadParamsRead(config, request, guid, c);
    ClientAuthParamsRead(config.clientCredentials);
    ClaimsParamsRead(config, request, c);
    Lookup3(head, auth, claims, ClientSecretKey);
    Lookup3(head, auth, claims, ClientAssertionKey);
    Lookup3(head, auth, claims, ClientAssertionTypeKey);
    Lookup3(head, auth, claims, ClaimsKey);
  }

  lemma HeadParamsRead(config: ClientConfiguration, request: CommonRequest, guid: string, c: Collaborators)
    ensures var head := HeadParams(config, request, guid, c);
      && Lookup(head, ClientIdKey) == Some(config.clientId)
      && Lookup(head, ScopeKey) == Some(c.printScopeParam(request.scopes, false))
      && Lookup(head, GrantTypeKey) == Some(CLIENT_CREDENTIALS_GRANT)
      && Lookup(head, CorrelationIdKey) == Some(OrElse(request.correlationId, guid))
      && forall key :: key !in {ClientIdKey, ScopeKey, GrantTypeKey, CorrelationIdKey} ==> Lookup(head, key).None?
  {
    var head := HeadParams(config, request, guid, c);
    LookupFirst(head, 0, ClientIdKey);
    LookupFirst(head, 1, ScopeKey);
    LookupFirst(head, 2, GrantTypeKey);
    LookupFirst(head, 3, CorrelationIdKey);
    forall key | key !in {ClientIdKey, ScopeKey, GrantTypeKey, CorrelationIdKey}
      ensures Lookup(head, key).None?
    {
      LookupAbsent(head, key);
    }
  }

  lemma ClaimsParamsRead(config: ClientConfiguration, request: CommonRequest, c: Collaborators)
    ensures var claims := ClaimsParams(config, request, c);
      && (Lookup(claims, ClaimsKey).Some? <==> SendsClaims(config, request, c))
      && Lookup(claims, ClientSecretKey).None? && Lookup(claims, ClientAssertionKey).None?
      && Lookup(claims, ClientAssertionTypeKey).None?
      && Lookup(claims, AssertionKey).None? && Lookup(claims, RequestedTokenUseKey).None?
  {
    var claims := ClaimsParams(config, request, c);
    if SendsClaims(config, request, c) {
      LookupFirst(claims, 0, ClaimsKey);
    }
    forall key | key != ClaimsKey ensures Lookup(claims, key).None? {
      LookupAbsent(claims, key);
    }
    if !SendsClaims(config, request, c) {
      LookupAbsent(claims, ClaimsKey);
    }
  }

  lemma Lookup3(head: seq<Param>, auth: seq<Param>, claims: seq<Param>, key: ParamKey)
    ensures Lookup(head + (auth + claims), key) == if Lookup(head, key).Some? then Lookup(head, key)
        else if Lookup(auth, key).Some? then Lookup(auth, key) else Lookup(claims, key)
  {
    LookupAppend(head, auth + claims, key);
    LookupAppend(auth, claims, key);
  }

  class ClientCredentialClient {
    const config: ClientConfiguration
    const authority: Authority
    /** The scope set of the current request, assigned by each `acquireToken`. */
    var scopeSet: ScopeSet
    /** The last cache outcome reported to server telemetry. */
    ghost var cacheOutcome: Option<CacheOutcome>
    /** Cache lookups, timestamps and token POSTs, in the order they happened. */
    ghost var events: seq<ClientEvent>

    constructor (config: ClientConfiguration, authority: Authority)
      ensures this.config == config && this.authority == authority
      ensures scopeSet == ScopeSet([]) && cacheOutcome == None && events == []
    {
      this.config := config;
      this.authority := authority;
      scopeSet := ScopeSet([]);
      cacheOutcome := None;
      events := [];
    }

    /** The request POSTed for `request`. */
    function NetworkRequest(request: CommonRequest, guid: string, c: Collaborators): TokenEndpointRequest {
      TokenEndpointRequest(authority.tokenEndpoint, TokenRequestBody(config, request, guid, c),
        ThumbprintOf(config.clientId, request))
    }

    /** `createTokenRequestBody`: fills a fresh parameter builder step by step. */
    method CreateTokenRequestBody(request: CommonRequest, guid: string, c: Collaborators) returns (body: seq<Param>)
      ensures body == TokenRequestBody(config, request, guid, c)
    {
      var builder := new ParameterBuilder();
      builder.Add(ClientIdKey, config.clientId);
      builder.Add(ScopeKey, c.printScopeParam(request.scopes, false));
      builder.Add(GrantTypeKey, CLIENT_CREDENTIALS_GRANT);
      builder.Add(CorrelationIdKey, OrElse(request.correlationId, guid));
      assert builder.parameters == HeadParams(config, request, guid, c);
      builder.AddClientCredentials(config.clientCredentials);
      if SendsClaims(config, request, c) {
        builder.Add(ClaimsKey, c.mergeClaims(request.claims, config.clientCapabilities));
      }
      body := builder.parameters;
    }

    /** `readAccessTokenFromCache`: looks up the filter built from the current scope set. */
    method ReadAccessTokenFromCache(cache: CacheStore) returns (r: Result<Option<Credential>, ClientAuthError>)
      requires cache.Valid()
      modifies this`events
      ensures r == ReadUniqueCredential(cache, AccessTokenFilter(config.clientId, authority, scopeSet))
      ensures events == old(events) + [CacheLookup(AccessTokenFilter(config.clientId, authority, scopeSet))]
    {
      var filter := AccessTokenFilter(config.clientId, authority, scopeSet);
      events := events + [CacheLookup(filter)];
      r := ReadUniqueCredential(cache, filter);
    }

    /** `getCachedAuthenticationResult`: the cached result, or `None` with the telemetry outcome recorded. */
    method GetCachedAuthenticationResult(cache: CacheStore, now: int, c: Collaborators)
      returns (r: Result<Option<AuthenticationResult>, ClientAuthError>)
      requires cache.Valid()
      modifies this`events, this`cacheOutcome
      ensures var filter := AccessTokenFilter(config.clientId, authority, scopeSet);
        && events == old(events) + [CacheLookup(filter)]
        && match ReadUniqueCredential(cache, filter)
           case Failure(e) => r == Failure(e) && cacheOutcome == old(cacheOutcome)
           case Success(token) =>
             match CheckCachedToken(token, Expired(c, config.tokenRenewalOffsetSeconds, now))
             case Hit(t) => r == Success(Some(CachedResult(t))) && cacheOutcome == old(cacheOutcome)
             case Miss(o) => r == Success(None) && cacheOutcome == Some(o)
    {
      var read := ReadAccessTokenFromCache(cache);
      if read.Failure? {
        return Failure(read.error);
      }
      var cachedAccessToken := read.value;
      if cachedAccessToken.None? {
        cacheOutcome := Some(NoCachedAccessToken);
        return Success(None);
      }
      if c.isTokenExpired(cachedAccessToken.value.expiresOn, config.tokenRenewalOffsetSeconds, now) {
        cacheOutcome := Some(CachedAccessTokenExpired);
        return Success(None);
      }
      r := Success(Some(CachedResult(cachedAccessToken.value)));
    }

    /** `executeTokenRequest`: builds the body, takes the timestamp, then POSTs. */
    method ExecuteTokenRequest(request: CommonRequest, guid: string, now: int, c: Collaborators)
      returns (r: AuthenticationResult)
      modifies this`events
      ensures var req := NetworkRequest(request, guid, c);
        && events == old(events) + [RequestTimestamp(now), TokenPost(req)]
        && r == FromServer(c.post(req), now)
    {
      var requestBody := CreateTokenRequestBody(request, guid, c);
      var thumbprint := ThumbprintOf(config.clientId, request);
      var reqTimestamp := now;
      events := events + [RequestTimestamp(reqTimestamp)];
      var req := TokenEndpointRequest(authority.tokenEndpoint, requestBody, thumbprint);
      var response := c.post(req);
      events := events + [TokenPost(req)];
      r := FromServer(response, reqTimestamp);
    }

    /** `acquireToken`: skip the cache, or use a cached token, or go to the network exactly once. */
    method AcquireToken(request: CommonRequest, cache: CacheStore, now: int, guid: string, c: Collaborators)
      returns (r: Result<AuthenticationResult, ClientAuthError>)
      requires cache.Valid()
      modifies this`scopeSet, this`events, this`cacheOutcome
      ensures scopeSet == FromRequest(request.scopes)
      ensures var filter := AccessTokenFilter(config.clientId, authority, scopeSet);
        var req := NetworkRequest(request, guid, c);
        var network := [RequestTimestamp(now), TokenPost(req)];
        if request.skipCache then
          r == Success(FromServer(c.post(req), now)) && events == old(events) + network
          && cacheOutcome == old(cacheOutcome)
        else match ReadUniqueCredential(cache, filter)
          case Failure(e) =>
            r == Failure(e) && events == old(events) + [CacheLookup(filter)]
            && cacheOutcome == old(cacheOutcome)
          case Success(token) =>
            match CheckCachedToken(token, Expired(c, config.tokenRenewalOffsetSeconds, now))
            case Hit(t) =>
              r == Success(CachedResult(t)) && events == old(events) + [CacheLookup(filter)]
              && cacheOutcome == old(cacheOutcome)
            case Miss(o) =>
              r == Success(FromServer(c.post(req), now)) && cacheOutcome == Some(o)
              && events == old(events) + [CacheLookup(filter)] + network
    {
      scopeSet := FromRequest(request.scopes);
      if request.skipCache {
        var result := ExecuteTokenRequest(request, guid, now, c);
        return Success(result);
      }
      var cached := GetCachedAuthenticationResult(cache, now, c);
      if cached.Failure? {
        return Failure(cached.error);
      }
      if cached.value.Some? {
        return Success(cached.value.value);
      }
      var result := ExecuteTokenRequest(request, guid, now, c);
      r := Success(result);
    }
  }
}
