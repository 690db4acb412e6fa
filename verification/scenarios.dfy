/**
 * The provider's unit-test scenarios, replayed against the model: each
 * method builds a provider with stand-in collaborators, as the tests do,
 * and its postcondition is what the test asserts.
 */
module Scenarios {
  import opened Wrappers
  import opened Expiry
  import opened AuthTypes
  import opened CredentialFlow
  import opened WorkloadIdentity

  const RegistryHost := "myregistry.azurecr.io"

  /** A stand-in for a collaborator the scenario never reaches. */
  function UnexpectedCall<T>(s: string): Result<T, string> {
    Failure("unexpected call")
  }

  /** An exchange that answers only the expected grant type and service. */
  function ExchangeAnswering(refreshToken: string): (Instant, string, string, string) -> Result<ExchangeResponse, string> {
    (at: Instant, grantType: string, service: string, accessToken: string) =>
      if grantType == AccessTokenGrantType && service == RegistryHost
      then Success(ExchangeResponse(Some(refreshToken)))
      else Failure("unexpected call")
  }

  /** Enabled needs all three fields, and clearing fields of a disabled provider keeps it disabled. */
  method EnabledScenario(acrWindow: int, refreshMargin: int) returns (enabled: seq<bool>)
    ensures enabled == [true, false, false, false]
  {
    var p := new WIAuthProvider((a: string) => UnexpectedCall(a),
                                (at: Instant, t: string, c: string, res: string) => Failure(AuthDenied("unexpected call")),
                                (url: string) => UnexpectedCall(url), acrWindow, refreshMargin);
    p.tenantID, p.clientID, p.aadToken := "test_tenant", "test_client", AuthResult("test_token", 0);
    enabled := [p.Enabled()];
    p.tenantID := "";
    enabled := enabled + [p.Enabled()];
    p.clientID := "";
    enabled := enabled + [p.Enabled()];
    p.aadToken := p.aadToken.(accessToken := "");
    enabled := enabled + [p.Enabled()];
  }

  /**
   * A fresh cached token: the exchange is made for the resolved host with
   * the cached token, its refresh token is returned unchanged, and the AAD
   * collaborator is never asked.
   */
  method ProvideSuccessScenario(now: Instant, acrWindow: int, refreshMargin: int)
    returns (r: Result<AuthConfig, Error>, ghost log: seq<Call>)
    requires ValidRefreshMargin(refreshMargin)
    ensures r == Success(AuthConfig(TokenLoginUsername, "mocked_refresh_token",
                                    GetACRExpiryIfEarlier(now + Hour, now, acrWindow)))
    ensures log == [GetRegistryHost("artifact"), NewAuthenticationClient("https://" + RegistryHost),
                    ExchangeAADAccessTokenForACRRefreshToken(AccessTokenGrantType, RegistryHost, "mockToken")]
    ensures CountRefreshes(log) == 0
  {
    var client := AuthClient(ExchangeAnswering("mocked_refresh_token"));
    var p := new WIAuthProvider((a: string) => Success(RegistryHost),
                                (at: Instant, t: string, c: string, res: string) => Success(AuthResult("mockToken", at + Hour)),
                                (url: string) => Success(client), acrWindow, refreshMargin);
    p.tenantID, p.clientID, p.aadToken := "mockTenantID", "mockClientID", AuthResult("mockToken", now + Hour);
    r := p.Provide(now, "artifact");
    log := p.calls;
    ProvideRefreshCount(p.State(), now, "artifact");
  }

  /**
   * A cached token expiring now: the AAD collaborator is asked once, the
   * cache takes its token, and an empty refresh token is accepted.
   */
  method ProvideRefreshScenario(now: Instant, acrWindow: int, refreshMargin: int)
    returns (r: Result<AuthConfig, Error>, cached: AuthResult, ghost log: seq<Call>)
    requires ValidRefreshMargin(refreshMargin)
    ensures r.Success? && r.value.password == ""
    ensures cached == AuthResult("newAccessToken", now + Hour)
    ensures log == [GetRegistryHost("testArtifact"), GetAADAccessToken("mockTenantID", "mockClientID", AADResource),
                    NewAuthenticationClient("https://" + RegistryHost),
                    ExchangeAADAccessTokenForACRRefreshToken(AccessTokenGrantType, RegistryHost, "newAccessToken")]
  {
    var client := AuthClient(ExchangeAnswering(""));
    var p := new WIAuthProvider((a: string) => Success(RegistryHost),
                                (at: Instant, t: string, c: string, res: string) => Success(AuthResult("newAccessToken", at + Hour)),
                                (url: string) => Success(client), acrWindow, refreshMargin);
    p.tenantID, p.clientID, p.aadToken := "mockTenantID", "mockClientID", AuthResult("mockToken", now);
    r := p.Provide(now, "testArtifact");
    cached := p.aadToken;
    log := p.calls;
  }

  /**
   * A zero provider whose host resolution fails: Provide fails at once,
   * although its cached token is stale, and nothing else is invoked.
   */
  method InvalidHostScenario(now: Instant, acrWindow: int, refreshMargin: int)
    returns (r: Result<AuthConfig, Error>, ghost log: seq<Call>)
    requires 0 <= now && ValidRefreshMargin(refreshMargin)
    ensures IsStale(ZeroAuthResult.expiresOn, now, refreshMargin)
    ensures r == Failure(HostNameInvalid("invalid hostname"))
    ensures log == [GetRegistryHost("artifact")]
  {
    var p := new WIAuthProvider((a: string) => Failure("invalid hostname"),
                                (at: Instant, t: string, c: string, res: string) => Failure(AuthDenied("unexpected call")),
                                (url: string) => UnexpectedCall(url), acrWindow, refreshMargin);
    r := p.Provide(now, "artifact");
    log := p.calls;
  }

  /**
   * The authentication client factory is a field a caller may replace:
   * Provide uses the installed one, passing it the registry's server URL,
   * and surfaces its error.
   */
  method ReplacedFactoryScenario(now: Instant, acrWindow: int, refreshMargin: int)
    returns (failed: Result<AuthConfig, Error>, succeeded: Result<AuthConfig, Error>, ghost log: seq<Call>)
    requires ValidRefreshMargin(refreshMargin)
    ensures failed == Failure(ClientCreationFailed("failed to create authentication client"))
    ensures succeeded.Success? && succeeded.value.password == "mocked_refresh_token"
    ensures log == [GetRegistryHost("artifact"), NewAuthenticationClient("https://myregistry.azurecr.io"),
                    GetRegistryHost("artifact"), NewAuthenticationClient("https://myregistry.azurecr.io"),
                    ExchangeAADAccessTokenForACRRefreshToken(AccessTokenGrantType, RegistryHost, "mockToken")]
  {
    var p := new WIAuthProvider((a: string) => Success(RegistryHost),
                                (at: Instant, t: string, c: string, res: string) => Failure(AuthDenied("unexpected call")),
                                (url: string) => UnexpectedCall(url), acrWindow, refreshMargin);
    p.tenantID, p.clientID, p.aadToken := "mockTenantID", "mockClientID", AuthResult("mockToken", now + Hour);
    p.authClientFactory := (url: string) => Failure("failed to create authentication client");
    assert ServerURL(RegistryHost) == "https://myregistry.azurecr.io";
    failed := p.Provide(now, "artifact");
    assert p.aadToken == AuthResult("mockToken", now + Hour);
    ghost var first := p.calls;
    assert first == [GetRegistryHost("artifact"), NewAuthenticationClient("https://myregistry.azurecr.io")];
    var client := AuthClient(ExchangeAnswering("mocked_refresh_token"));
    p.authClientFactory := (url: string) => Success(client);
    succeeded := p.Provide(now, "artifact");
    log := p.calls;
  }

  /** The calls a mock of the authentication client receives: the exchanges. */
  function ClientCalls(calls: seq<Call>): seq<Call> {
    if calls == [] then []
    else (if calls[0].ExchangeAADAccessTokenForACRRefreshToken? then [calls[0]] else []) + ClientCalls(calls[1..])
  }

  /** A client mock never records an AAD token request, whatever the provider does. */
  lemma {:induction false} ClientCallsHaveNoRefresh(calls: seq<Call>)
    ensures CountRefreshes(ClientCalls(calls)) == 0
  {
    if calls != [] {
      var head := if calls[0].ExchangeAADAccessTokenForACRRefreshToken? then [calls[0]] else [];
      ClientCallsHaveNoRefresh(calls[1..]);
      CountRefreshesAppend(head, ClientCalls(calls[1..]));
      assert head != [] ==> head[1..] == [];
    }
  }

  /**
   * The success test's "AAD token not requested" check asks the client
   * mock, which cannot see such a request: even a call that does refresh
   * the token leaves that mock's record free of it.
   */
  lemma ClientMockCheckIsVacuous(s: ProviderState, now: Instant, artifact: string)
    requires s.getRegistryHost(artifact).Success?
    requires IsStale(s.aadToken.expiresOn, now, s.refreshMargin)
    ensures CountRefreshes(CredentialFlow.Provide(s, now, artifact).calls) == 1
    ensures CountRefreshes(ClientCalls(CredentialFlow.Provide(s, now, artifact).calls)) == 0
  {
    ProvideRefreshCount(s, now, artifact);
    ClientCallsHaveNoRefresh(CredentialFlow.Provide(s, now, artifact).calls);
  }
}
