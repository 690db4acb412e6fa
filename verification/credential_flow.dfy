/**
 * The credential flow of WIAuthProvider.Provide, as a function of the
 * provider's state, the current instant and the artifact reference.
 *
 * The collaborators the provider holds in function-valued fields (host
 * resolution, AAD token acquisition, the authentication client factory and
 * the client's token exchange) are arbitrary total functions here, so every
 * property below holds whatever they answer. Each invocation is recorded in
 * a call log, which is what the tests' mocks observe.
 */
module CredentialFlow {
  import opened Wrappers
  import opened Expiry
  import opened AuthTypes

  /** The grant type of the AAD-to-ACR exchange. */
  const AccessTokenGrantType := "access_token"
  /** The AAD resource scope requested for the registry. */
  const AADResource := "https://containerregistry.azure.net/.default"
  /** The user name ACR expects with a refresh token as password. */
  const TokenLoginUsername := "00000000-0000-0000-0000-000000000000"

  /** The exchange response; its refresh token is a pointer that may be nil. */
  datatype ExchangeResponse = ExchangeResponse(refreshToken: Option<string>)

  /**
   * An ACR authentication client: its exchange takes the current instant,
   * the grant type, the service and the AAD access token.
   */
  datatype AuthClient = AuthClient(exchange: (Instant, string, string, string) -> Result<ExchangeResponse, string>)

  /** The credential handed to the registry client. */
  datatype AuthConfig = AuthConfig(username: string, password: string, expiresOn: Instant)

  /** One invocation of a collaborator, with the arguments that matter. */
  datatype Call =
    | GetRegistryHost(artifact: string)
    | GetAADAccessToken(tenantID: string, clientID: string, resource: string)
    | NewAuthenticationClient(serverURL: string)
    | ExchangeAADAccessTokenForACRRefreshToken(grantType: string, service: string, accessToken: string)

  /** The fields of a WIAuthProvider, with the two timing parameters. */
  datatype ProviderState = ProviderState(
    tenantID: string,
    clientID: string,
    aadToken: AuthResult,
    getRegistryHost: string -> Result<string, string>,
    getAADAccessToken: (Instant, string, string, string) -> Result<AuthResult, Error>,
    authClientFactory: string -> Result<AuthClient, string>,
    acrWindow: int,
    refreshMargin: int)

  /** What one Provide call returns, the cached token it leaves, and the calls it made. */
  datatype Outcome = Outcome(result: Result<AuthConfig, Error>, aadToken: AuthResult, calls: seq<Call>)

  /** The registry's server URL, given to the client factory. */
  function ServerURL(host: string): string {
    "https://" + host
  }

  /** Step 2: the cached token if it is fresh, otherwise a newly acquired one. */
  function Refresh(s: ProviderState, now: Instant): (r: Result<AuthResult, Error>)
    ensures !IsStale(s.aadToken.expiresOn, now, s.refreshMargin) ==> r == Success(s.aadToken)
    ensures IsStale(s.aadToken.expiresOn, now, s.refreshMargin) ==>
              r == s.getAADAccessToken(now, s.tenantID, s.clientID, AADResource)
  {
    if IsStale(s.aadToken.expiresOn, now, s.refreshMargin) then
      s.getAADAccessToken(now, s.tenantID, s.clientID, AADResource)
    else
      Success(s.aadToken)
  }

  /** Steps 3 to 5, once the host is resolved and the token to present is known. */
  function Exchange(s: ProviderState, now: Instant, host: string, token: AuthResult, prior: seq<Call>): Outcome {
    var url := ServerURL(host);
    match s.authClientFactory(url)
    case Failure(e) =>
      Outcome(Failure(ClientCreationFailed(e)), token, prior + [NewAuthenticationClient(url)])
    case Success(client) =>
      var calls := prior + [NewAuthenticationClient(url),
                            ExchangeAADAccessTokenForACRRefreshToken(AccessTokenGrantType, host, token.accessToken)];
      match client.exchange(now, AccessTokenGrantType, host, token.accessToken)
      case Failure(e) => Outcome(Failure(ExchangeFailed(e)), token, calls)
      case Success(response) =>
        match response.refreshToken
        case None => Outcome(Failure(MissingRefreshToken), token, calls)
        case Some(refreshToken) =>
          var expiresOn := GetACRExpiryIfEarlier(token.expiresOn, now, s.acrWindow);
          Outcome(Success(AuthConfig(TokenLoginUsername, refreshToken, expiresOn)), token, calls)
  }

  /**
   * Provide: resolve the registry host and fail fast; refresh the AAD token
   * if stale and fail without touching the cache; build a client for the
   * host; exchange the AAD token for an ACR refresh token; return it as the
   * password.
   */
  function Provide(s: ProviderState, now: Instant, artifact: string): (o: Outcome)
    // host resolution comes first, and its failure ends the call with nothing else invoked
    ensures |o.calls| >= 1 && o.calls[0] == GetRegistryHost(artifact)
    ensures s.getRegistryHost(artifact).Failure? ==>
              o == Outcome(Failure(HostNameInvalid(s.getRegistryHost(artifact).error)), s.aadToken, [GetRegistryHost(artifact)])
    // the cache only ever changes to a token the AAD collaborator issued, and never on a failed refresh
    ensures o.aadToken == s.aadToken || s.getAADAccessToken(now, s.tenantID, s.clientID, AADResource) == Success(o.aadToken)
    ensures o.result.Failure? && o.result.error.RefreshFailed? ==> o.aadToken == s.aadToken
    // a successful refresh replaces the cache even when a later step fails
    ensures o.aadToken == if s.getRegistryHost(artifact).Success? && Refresh(s, now).Success?
                          then Refresh(s, now).value else s.aadToken
    // an exchange that fails, or answers without a refresh token, is the last call made
    ensures o.result.Failure? && (o.result.error.ExchangeFailed? || o.result.error.MissingRefreshToken?) ==>
              && s.getRegistryHost(artifact).Success?
              && o.calls[|o.calls| - 1]
                 == ExchangeAADAccessTokenForACRRefreshToken(AccessTokenGrantType, s.getRegistryHost(artifact).value, o.aadToken.accessToken)
    // a failed refresh or a failed client construction also ends the call at once
    ensures o.result.Failure? && o.result.error.RefreshFailed? ==>
              o.calls == [GetRegistryHost(artifact), GetAADAccessToken(s.tenantID, s.clientID, AADResource)]
    ensures o.result.Failure? && o.result.error.ClientCreationFailed? ==>
              && s.getRegistryHost(artifact).Success?
              && o.calls[|o.calls| - 1] == NewAuthenticationClient(ServerURL(s.getRegistryHost(artifact).value))
              && forall i :: 0 <= i < |o.calls| ==> !o.calls[i].ExchangeAADAccessTokenForACRRefreshToken?
    // conversely, each failing step yields its own error kind with the collaborator's message
    ensures s.getRegistryHost(artifact).Success? && Refresh(s, now).Failure? ==>
              o == Outcome(Failure(RefreshFailed(Refresh(s, now).error)), s.aadToken,
                           [GetRegistryHost(artifact), GetAADAccessToken(s.tenantID, s.clientID, AADResource)])
    ensures s.getRegistryHost(artifact).Success? && Refresh(s, now).Success? ==>
              var url := ServerURL(s.getRegistryHost(artifact).value);
              s.authClientFactory(url).Failure? ==>
                o.result == Failure(ClientCreationFailed(s.authClientFactory(url).error))
    ensures s.getRegistryHost(artifact).Success? && Refresh(s, now).Success? ==>
              var host := s.getRegistryHost(artifact).value;
              s.authClientFactory(ServerURL(host)).Success? ==>
                match s.authClientFactory(ServerURL(host)).value.exchange(
                        now, AccessTokenGrantType, host, Refresh(s, now).value.accessToken)
                case Failure(e) => o.result == Failure(ExchangeFailed(e))
                case Success(response) => response.refreshToken.None? ==> o.result == Failure(MissingRefreshToken)
    // a credential is the exchanged refresh token, unchanged, for the resolved host and the presented token
    ensures o.result.Success? ==>
              && s.getRegistryHost(artifact).Success?
              && Refresh(s, now) == Success(o.aadToken)
              && s.authClientFactory(ServerURL(s.getRegistryHost(artifact).value)).Success?
              && s.authClientFactory(ServerURL(s.getRegistryHost(artifact).value)).value.exchange(
                   now, AccessTokenGrantType, s.getRegistryHost(artifact).value, o.aadToken.accessToken)
                 == Success(ExchangeResponse(Some(o.result.value.password)))
              && o.calls[|o.calls| - 1]
                 == ExchangeAADAccessTokenForACRRefreshToken(AccessTokenGrantType, s.getRegistryHost(artifact).value, o.aadToken.accessToken)
              && o.result.value.username == TokenLoginUsername
              && o.result.value.expiresOn == GetACRExpiryIfEarlier(o.aadToken.expiresOn, now, s.acrWindow)
  {
    var hostCall := GetRegistryHost(artifact);
    match s.getRegistryHost(artifact)
    case Failure(e) =>
      Outcome(Failure(HostNameInvalid(e)), s.aadToken, [hostCall])
    case Success(host) =>
      if IsStale(s.aadToken.expiresOn, now, s.refreshMargin) then
        var refreshCalls := [hostCall, GetAADAccessToken(s.tenantID, s.clientID, AADResource)];
        match s.getAADAccessToken(now, s.tenantID, s.clientID, AADResource)
        case Failure(e) => Outcome(Failure(RefreshFailed(e)), s.aadToken, refreshCalls)
        case Success(token) => Exchange(s, now, host, token, refreshCalls)
      else
        Exchange(s, now, host, s.aadToken, [hostCall])
  }

  /**
   * When the host resolves, the token step succeeds and the exchange
   * answers with a refresh token, Provide returns exactly that token as the
   * password, the empty one included.
   */
  lemma ProvideReturnsExchangedToken(s: ProviderState, now: Instant, artifact: string, refreshToken: string)
    requires s.getRegistryHost(artifact).Success?
    requires Refresh(s, now).Success?
    requires s.authClientFactory(ServerURL(s.getRegistryHost(artifact).value)).Success?
    requires s.authClientFactory(ServerURL(s.getRegistryHost(artifact).value)).value.exchange(
               now, AccessTokenGrantType, s.getRegistryHost(artifact).value, Refresh(s, now).value.accessToken)
             == Success(ExchangeResponse(Some(refreshToken)))
    ensures Provide(s, now, artifact).result
            == Success(AuthConfig(TokenLoginUsername, refreshToken,
                                  GetACRExpiryIfEarlier(Refresh(s, now).value.expiresOn, now, s.acrWindow)))
    ensures Provide(s, now, artifact).aadToken == Refresh(s, now).value
  {
  }

  /** The number of AAD token requests in a call log. */
  function CountRefreshes(calls: seq<Call>): nat {
    if calls == [] then 0
    else (if calls[0].GetAADAccessToken? then 1 else 0) + CountRefreshes(calls[1..])
  }

  lemma {:induction false} CountRefreshesAppend(a: seq<Call>, b: seq<Call>)
    ensures CountRefreshes(a + b) == CountRefreshes(a) + CountRefreshes(b)
  {
    if a == [] {
      assert a + b == b;
    } else {
      assert (a + b)[1..] == a[1..] + b;
      CountRefreshesAppend(a[1..], b);
    }
  }

  /**
   * One Provide call asks the AAD collaborator for a token exactly when the
   * host resolved and the cached token is stale, and never more than once.
   */
  lemma ProvideRefreshCount(s: ProviderState, now: Instant, artifact: string)
    ensures CountRefreshes(Provide(s, now, artifact).calls)
            == if s.getRegistryHost(artifact).Success? && IsStale(s.aadToken.expiresOn, now, s.refreshMargin) then 1 else 0
  {
    var o := Provide(s, now, artifact);
    var hostCall := GetRegistryHost(artifact);
    assert CountRefreshes([hostCall]) == 0;
    match s.getRegistryHost(artifact)
    case Failure(_) =>
    case Success(host) =>
      var url := ServerURL(host);
      var tail := [NewAuthenticationClient(url), ExchangeAADAccessTokenForACRRefreshToken(AccessTokenGrantType, host, o.aadToken.accessToken)];
      assert tail[1..] == [tail[1]] && [tail[1]][1..] == [];
      assert CountRefreshes([tail[1]]) == 0;
      assert CountRefreshes(tail) == 0;
      assert CountRefreshes([NewAuthenticationClient(url)]) == 0;
      if IsStale(s.aadToken.expiresOn, now, s.refreshMargin) {
        var refreshCalls := [hostCall, GetAADAccessToken(s.tenantID, s.clientID, AADResource)];
        assert refreshCalls[1..] == [refreshCalls[1]] && [refreshCalls[1]][1..] == [];
        assert CountRefreshes(refreshCalls) == 1;
        CountRefreshesAppend(refreshCalls, tail);
        CountRefreshesAppend(refreshCalls, [NewAuthenticationClient(url)]);
      } else {
        CountRefreshesAppend([hostCall], tail);
        CountRefreshesAppend([hostCall], [NewAuthenticationClient(url)]);
      }
  }

  /** One Provide call on a provider, at a given instant. */
  datatype Request = Request(now: Instant, artifact: string)

  /** What a sequence of Provide calls on one provider returns, leaves cached and invokes. */
  datatype Run = Run(results: seq<Result<AuthConfig, Error>>, aadToken: AuthResult, calls: seq<Call>)

  /** Sequential Provide calls on one provider: each sees the cache the previous one left. */
  function ProvideAll(s: ProviderState, requests: seq<Request>): Run
    decreases |requests|
  {
    if requests == [] then Run([], s.aadToken, [])
    else
      var o := Provide(s, requests[0].now, requests[0].artifact);
      var rest := ProvideAll(s.(aadToken := o.aadToken), requests[1..]);
      Run([o.result] + rest.results, rest.aadToken, o.calls + rest.calls)
  }

  /** Over any sequence of calls, the AAD collaborator is asked at most once per call. */
  lemma {:induction false} RefreshesAtMostOncePerCall(s: ProviderState, requests: seq<Request>)
    ensures CountRefreshes(ProvideAll(s, requests).calls) <= |requests|
    decreases |requests|
  {
    if requests != [] {
      var o := Provide(s, requests[0].now, requests[0].artifact);
      ProvideRefreshCount(s, requests[0].now, requests[0].artifact);
      RefreshesAtMostOncePerCall(s.(aadToken := o.aadToken), requests[1..]);
      CountRefreshesAppend(o.calls, ProvideAll(s.(aadToken := o.aadToken), requests[1..]).calls);
    }
  }

  /**
   * A cached token that stays fresh is reused: if it is fresh at every
   * request's instant, no call of the sequence asks for a new one and the
   * cache keeps it.
   */
  lemma {:induction false} FreshTokenIsReused(s: ProviderState, requests: seq<Request>)
    requires forall i :: 0 <= i < |requests| ==> !IsStale(s.aadToken.expiresOn, requests[i].now, s.refreshMargin)
    ensures CountRefreshes(ProvideAll(s, requests).calls) == 0
    ensures ProvideAll(s, requests).aadToken == s.aadToken
    decreases |requests|
  {
    if requests != [] {
      var o := Provide(s, requests[0].now, requests[0].artifact);
      ProvideRefreshCount(s, requests[0].now, requests[0].artifact);
      assert o.aadToken == s.aadToken;
      assert s.(aadToken := o.aadToken) == s;
      assert forall i :: 0 <= i < |requests[1..]| ==> requests[1..][i] == requests[i + 1];
      FreshTokenIsReused(s, requests[1..]);
      CountRefreshesAppend(o.calls, ProvideAll(s, requests[1..]).calls);
    }
  }

  /**
   * The cache only ever holds the token it started with or one the AAD
   * collaborator issued at the instant of one of the calls.
   */
  lemma {:induction false} CacheHoldsIssuedTokens(s: ProviderState, requests: seq<Request>)
    ensures var token := ProvideAll(s, requests).aadToken;
      token == s.aadToken
      || exists i :: 0 <= i < |requests|
           && s.getAADAccessToken(requests[i].now, s.tenantID, s.clientID, AADResource) == Success(token)
    decreases |requests|
  {
    if requests != [] {
      var o := Provide(s, requests[0].now, requests[0].artifact);
      var s' := s.(aadToken := o.aadToken);
      var token := ProvideAll(s, requests).aadToken;
      CacheHoldsIssuedTokens(s', requests[1..]);
      if token == s'.aadToken {
        if o.aadToken != s.aadToken {
          assert s.getAADAccessToken(requests[0].now, s.tenantID, s.clientID, AADResource) == Success(token);
        }
      } else {
        var i :| 0 <= i < |requests[1..]|
                 && s'.getAADAccessToken(requests[1..][i].now, s'.tenantID, s'.clientID, AADResource) == Success(token);
        assert requests[1..][i] == requests[i + 1];
      }
    }
  }
}
