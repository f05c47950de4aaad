/**
 * What the confidential-client grants share: configuration, the request and its thumbprint,
 * the form-encoded token request body and its builder, the cache-hit result and the
 * collaborators whose code lies outside this model.
 */
module ClientCommon {
  import opened Wrappers
  import opened CredentialCache
  import JsStrings

  /** The parts of the authority the clients use. */
  datatype Authority = Authority(hostNameAndPort: string, tenant: string, tokenEndpoint: string)

  /** A signed client assertion and its type (section 2.2 of RFC 7523). */
  datatype ClientAssertion = ClientAssertion(assertion: string, assertionType: string)

  /** The configured client authentication; a missing secret is `None` or `""`. */
  datatype ClientCredentials = ClientCredentials(
    clientSecret: Option<string>,
    clientAssertion: Option<ClientAssertion>)

  datatype ClientConfiguration = ClientConfiguration(
    clientId: string,
    clientCredentials: ClientCredentials,
    clientCapabilities: Option<seq<string>>,
    tokenRenewalOffsetSeconds: int)

  /** The fields of a confidential-client token request that the two grants read. */
  datatype CommonRequest = CommonRequest(
    scopes: Option<seq<string>>,
    authority: string,
    correlationId: Option<string>,
    skipCache: bool,
    claims: Option<string>,
    authenticationScheme: Option<string>,
    resourceRequestMethod: Option<string>,
    resourceRequestUri: Option<string>,
    shrClaims: Option<string>,
    sshJwk: Option<string>,
    sshKid: Option<string>)

  /** The key that identifies one outbound token request. */
  datatype RequestThumbprint = RequestThumbprint(
    clientId: string,
    authority: string,
    scopes: Option<seq<string>>,
    homeAccountIdentifier: Option<string>,
    authenticationScheme: Option<string>,
    resourceRequestMethod: Option<string>,
    resourceRequestUri: Option<string>,
    shrClaims: Option<string>,
    sshJwk: Option<string>,
    sshKid: Option<string>)

  /** Both grants build the thumbprint field for field from the request and the client id. */
  function ThumbprintOf(clientId: string, r: CommonRequest): (t: RequestThumbprint)
    ensures t.clientId == clientId && t.authority == r.authority && t.scopes == r.scopes
    ensures t.homeAccountIdentifier.None?
    ensures t.authenticationScheme == r.authenticationScheme
    ensures t.resourceRequestMethod == r.resourceRequestMethod && t.resourceRequestUri == r.resourceRequestUri
    ensures t.shrClaims == r.shrClaims && t.sshJwk == r.sshJwk && t.sshKid == r.sshKid
  {
    RequestThumbprint(clientId, r.authority, r.scopes, None,
      r.authenticationScheme, r.resourceRequestMethod, r.resourceRequestUri,
      r.shrClaims, r.sshJwk, r.sshKid)
  }

  /** One `key=value` pair of a form-encoded body; URL encoding is not modelled. */
  datatype Param = Param(key: ParamKey, value: string)

  /** The parameter names of the token endpoint body. */
  datatype ParamKey =
    | ClientIdKey | ScopeKey | GrantTypeKey | CorrelationIdKey | ClientSecretKey
    | ClientAssertionKey | ClientAssertionTypeKey | ClaimsKey | RequestedTokenUseKey | AssertionKey
  {
    /** The name on the wire. */
    function Name(): string {
      match this
      case ClientIdKey => "client_id"
      case ScopeKey => "scope"
      case GrantTypeKey => "grant_type"
      case CorrelationIdKey => "client-request-id"
      case ClientSecretKey => "client_secret"
      case ClientAssertionKey => "client_assertion"
      case ClientAssertionTypeKey => "client_assertion_type"
      case ClaimsKey => "claims"
      case RequestedTokenUseKey => "requested_token_use"
      case AssertionKey => "assertion"
    }
  }

  /**
   * Distinct keys have distinct wire names, so reading a body by key is reading it by the
   * parameter name a server sees.
   */
  lemma ParamNamesDistinct(a: ParamKey, b: ParamKey)
    ensures a.Name() == b.Name() <==> a == b
  {
  }

  /** The value of `requested_token_use` for the on-behalf-of grant. */
  const ON_BEHALF_OF := "on_behalf_of"
  /** Grant type of section 4.4.2 of RFC 6749. */
  const CLIENT_CREDENTIALS_GRANT := "client_credentials"
  /** Grant type of section 2.1 of RFC 7523. */
  const JWT_BEARER := "urn:ietf:params:oauth:grant-type:jwt-bearer"

  /** The value of the first parameter named `key`, as a server reading the body sees it. */
  function Lookup(body: seq<Param>, key: ParamKey): Option<string> {
    if body == [] then None
    else if body[0].key == key then Some(body[0].value)
    else Lookup(body[1..], key)
  }

  /** A server reads a parameter of `a + b` from `a` when `a` has it, and from `b` otherwise. */
  lemma {:induction false} LookupAppend(a: seq<Param>, b: seq<Param>, key: ParamKey)
    ensures Lookup(a + b, key) == if Lookup(a, key).Some? then Lookup(a, key) else Lookup(b, key)
  {
    if a != [] {
      assert (a + b)[1..] == a[1..] + b;
      LookupAppend(a[1..], b, key);
    } else {
      assert a + b == b;
    }
  }

  /** A server finds no value for a key that no parameter has. */
  lemma {:induction false} LookupAbsent(body: seq<Param>, key: ParamKey)
    requires forall i :: 0 <= i < |body| ==> body[i].key != key
    ensures Lookup(body, key).None?
  {
    if body != [] {
      LookupAbsent(body[1..], key);
    }
  }

  /** A server reads the value of the first parameter with the key. */
  lemma {:induction false} LookupFirst(body: seq<Param>, i: nat, key: ParamKey)
    requires i < |body| && body[i].key == key
    requires forall j :: 0 <= j < i ==> body[j].key != key
    ensures Lookup(body, key) == Some(body[i].value)
  {
    if i > 0 {
      LookupFirst(body[1..], i - 1, key);
    }
  }

  /** The client-authentication parameters: the secret and the assertion, each added when configured. */
  function ClientAuthParams(creds: ClientCredentials): seq<Param> {
    (if JsStrings.Truthy(creds.clientSecret) then [Param(ClientSecretKey, creds.clientSecret.value)] else [])
    + (if creds.clientAssertion.Some?
       then [Param(ClientAssertionKey, creds.clientAssertion.value.assertion),
             Param(ClientAssertionTypeKey, creds.clientAssertion.value.assertionType)]
       else [])
  }

  /**
   * The secret is sent exactly when one is configured, and the assertion with its type
   * exactly when one is configured, independently of each other.
   */
  lemma ClientAuthParamsRead(creds: ClientCredentials)
    ensures var ps := ClientAuthParams(creds);
      && Lookup(ps, ClientSecretKey) == (if JsStrings.Truthy(creds.clientSecret) then creds.clientSecret else None)
      && Lookup(ps, ClientAssertionKey) == (if creds.clientAssertion.Some? then Some(creds.clientAssertion.value.assertion) else None)
      && Lookup(ps, ClientAssertionTypeKey) == (if creds.clientAssertion.Some? then Some(creds.clientAssertion.value.assertionType) else None)
      && forall key :: key != ClientSecretKey && key != ClientAssertionKey && key != ClientAssertionTypeKey ==> Lookup(ps, key).None?
  {
    var secret := if JsStrings.Truthy(creds.clientSecret) then [Param(ClientSecretKey, creds.clientSecret.value)] else [];
    var assertion := if creds.clientAssertion.Some?
       then [Param(ClientAssertionKey, creds.clientAssertion.value.assertion),
             Param(ClientAssertionTypeKey, creds.clientAssertion.value.assertionType)]
       else [];
    assert ClientAuthParams(creds) == secret + assertion;
    forall key ensures Lookup(secret + assertion, key) == if Lookup(secret, key).Some? then Lookup(secret, key) else Lookup(assertion, key) {
      LookupAppend(secret, assertion, key);
    }
    if JsStrings.Truthy(creds.clientSecret) {
      LookupFirst(secret, 0, ClientSecretKey);
    }
    forall key | key != ClientSecretKey ensures Lookup(secret, key).None? {
      LookupAbsent(secret, key);
    }
    if creds.clientAssertion.Some? {
      LookupFirst(assertion, 0, ClientAssertionKey);
      LookupFirst(assertion, 1, ClientAssertionTypeKey);
    }
    forall key | key != ClientAssertionKey && key != ClientAssertionTypeKey ensures Lookup(assertion, key).None? {
      LookupAbsent(assertion, key);
    }
  }

  /** `RequestParameterBuilder`: parameters are added one at a time, in order. */
  class ParameterBuilder {
    var parameters: seq<Param>

    constructor ()
      ensures parameters == []
    {
      parameters := [];
    }

    method Add(key: ParamKey, value: string)
      modifies this
      ensures parameters == old(parameters) + [Param(key, value)]
    {
      parameters := parameters + [Param(key, value)];
    }

    /** `addClientSecret` when a secret is configured, then `addClientAssertion` and its type when an assertion is. */
    method AddClientCredentials(creds: ClientCredentials)
      modifies this
      ensures parameters == old(parameters) + ClientAuthParams(creds)
    {
      ghost var before := parameters;
      if creds.clientSecret.Some? && creds.clientSecret.value != "" {
        Add(ClientSecretKey, creds.clientSecret.value);
      }
      ghost var mid := parameters;
      if creds.clientAssertion.Some? {
        Add(ClientAssertionKey, creds.clientAssertion.value.assertion);
        Add(ClientAssertionTypeKey, creds.clientAssertion.value.assertionType);
      }
      assert parameters == mid + (parameters[|mid|..]);
    }
  }

  /** Why a cache lookup did not produce a token, as reported to server telemetry. */
  datatype CacheOutcome = NoCachedAccessToken | CachedAccessTokenExpired

  datatype AppMetadata = AppMetadata(clientId: string, environment: string, familyId: string)

  /** The cache decision of `getCachedAuthenticationResult`: use the token or report why not. */
  datatype CacheDecision = Miss(outcome: CacheOutcome) | Hit(token: Credential)

  /** The credentials handed to the response handler to build a result. */
  datatype CacheRecord = CacheRecord(
    account: Option<AccountEntity>,
    idToken: Option<Credential>,
    accessToken: Option<Credential>,
    refreshToken: Option<Credential>,
    appMetadata: Option<AppMetadata>)

  /** The claims of a decoded ID token that the on-behalf-of client reads. */
  datatype IdTokenClaims = IdTokenClaims(oid: Option<string>, sub: Option<string>)

  /** What is POSTed to the token endpoint. */
  datatype TokenEndpointRequest = TokenEndpointRequest(
    endpoint: string,
    body: seq<Param>,
    thumbprint: RequestThumbprint)

  /** The raw response of the token endpoint. */
  datatype ServerResponse = ServerResponse(status: int, body: string)

  /**
   * A result of `acquireToken`: either the cached credentials handed to
   * `ResponseHandler.generateAuthenticationResult`, or the server response handed to
   * `ResponseHandler.handleServerTokenResponse` with the request timestamp.
   */
  datatype AuthenticationResult =
    | FromCache(record: CacheRecord, fromCache: bool, idTokenObject: Option<IdTokenClaims>)
    | FromServer(response: ServerResponse, requestTimestamp: int)

  /** The observable steps of one `acquireToken` call, in order. */
  datatype ClientEvent =
    | CacheLookup(filter: CredentialFilter)
    | RequestTimestamp(now: int)
    | TokenPost(request: TokenEndpointRequest)

  /**
   * Code outside this model, as functions: `TimeUtils.isTokenExpired(expiresOn, offset)` at
   * time `now`, `StringUtils.isEmptyObj`, the claims merge and scope printing of
   * `RequestParameterBuilder`, ID-token decoding, `CacheManager.readAccountFromCache` and the
   * network module's POST.
   */
  datatype Collaborators = Collaborators(
    isTokenExpired: (int, int, int) -> bool,
    isEmptyObj: Option<string> -> bool,
    mergeClaims: (Option<string>, Option<seq<string>>) -> string,
    printScopeParam: (Option<seq<string>>, bool) -> string,
    decodeIdToken: string -> IdTokenClaims,
    readAccountFromCache: AccountInfo -> Option<AccountEntity>,
    post: TokenEndpointRequest -> ServerResponse)

  /** Whether a token is expired under the renewal offset `offset` at time `now`. */
  function Expired(c: Collaborators, offset: int, now: int): Credential -> bool {
    (t: Credential) => c.isTokenExpired(t.expiresOn, offset, now)
  }
}
