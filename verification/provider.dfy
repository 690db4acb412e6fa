/**
 * WIAuthProvider: the Azure workload-identity auth provider as an object
 * whose cached AAD token is updated in place by Provide, and the factory
 * step that validates the environment and builds one.
 */
module WorkloadIdentity {
  import opened Wrappers
  import opened Expiry
  import opened AuthTypes
  import opened CredentialFlow
  import Validation

  class WIAuthProvider {
    var tenantID: string
    var clientID: string
    /** The cached AAD access token; Provide refreshes it in place. */
    var aadToken: AuthResult
    var getRegistryHost: string -> Result<string, string>
    var getAADAccessToken: (Instant, string, string, string) -> Result<AuthResult, Error>
    /** Injected so that tests can replace the registry client. */
    var authClientFactory: string -> Result<AuthClient, string>
    /** The ACR default token lifetime. */
    const acrWindow: int
    /** How long before its expiry the cached AAD token counts as stale. */
    const refreshMargin: int
    /** Every collaborator invocation so far, as a mock would record it. */
    ghost var calls: seq<Call>

    function State(): ProviderState
      reads this
    {
      ProviderState(tenantID, clientID, aadToken, getRegistryHost, getAADAccessToken,
                    authClientFactory, acrWindow, refreshMargin)
    }

    /** NewAzureWIAuthProvider: the given collaborators, no identity and no token yet. */
    constructor (getRegistryHost: string -> Result<string, string>,
                 getAADAccessToken: (Instant, string, string, string) -> Result<AuthResult, Error>,
                 authClientFactory: string -> Result<AuthClient, string>,
                 acrWindow: int, refreshMargin: int)
      ensures tenantID == "" && clientID == "" && aadToken == ZeroAuthResult && calls == []
      ensures this.getRegistryHost == getRegistryHost && this.getAADAccessToken == getAADAccessToken
      ensures this.authClientFactory == authClientFactory
      ensures this.acrWindow == acrWindow && this.refreshMargin == refreshMargin
    {
      tenantID, clientID, aadToken := "", "", ZeroAuthResult;
      this.getRegistryHost := getRegistryHost;
      this.getAADAccessToken := getAADAccessToken;
      this.authClientFactory := authClientFactory;
      this.acrWindow, this.refreshMargin := acrWindow, refreshMargin;
      calls := [];
    }

    /** The provider is usable once it has a tenant, a client and an access token. */
    function Enabled(): (b: bool)
      reads this
      ensures b <==> tenantID != "" && clientID != "" && aadToken.accessToken != ""
    {
      if tenantID == "" || clientID == "" then false
      else if aadToken.accessToken == "" then false
      else true
    }

    /**
     * Provide, step by step with early returns. Only the cached token and
     * the call log change, exactly as the credential flow says.
     */
    method Provide(now: Instant, artifact: string) returns (r: Result<AuthConfig, Error>)
      modifies this`aadToken, this`calls
      ensures var o := CredentialFlow.Provide(old(State()), now, artifact);
        r == o.result && aadToken == o.aadToken && calls == old(calls) + o.calls
    {
      ghost var log := [GetRegistryHost(artifact)];
      var host := getRegistryHost(artifact);
      if host.Failure? {
        calls := calls + log;
        return Failure(HostNameInvalid(host.error));
      }
      if IsStale(aadToken.expiresOn, now, refreshMargin) {
        log := log + [GetAADAccessToken(tenantID, clientID, AADResource)];
        var newToken := getAADAccessToken(now, tenantID, clientID, AADResource);
        if newToken.Failure? {
          calls := calls + log;
          return Failure(RefreshFailed(newToken.error));
        }
        aadToken := newToken.value;
      }
      var serverURL := ServerURL(host.value);
      log := log + [NewAuthenticationClient(serverURL)];
      var client := authClientFactory(serverURL);
      if client.Failure? {
        calls := calls + log;
        return Failure(ClientCreationFailed(client.error));
      }
      log := log + [ExchangeAADAccessTokenForACRRefreshToken(AccessTokenGrantType, host.value, aadToken.accessToken)];
      calls := calls + log;
      var response := client.value.exchange(now, AccessTokenGrantType, host.value, aadToken.accessToken);
      if response.Failure? {
        return Failure(ExchangeFailed(response.error));
      }
      if response.value.refreshToken.None? {
        return Failure(MissingRefreshToken);
      }
      var expiresOn := GetACRExpiryIfEarlier(aadToken.expiresOn, now, acrWindow);
      r := Success(AuthConfig(TokenLoginUsername, response.value.refreshToken.value, expiresOn));
    }
  }

  /**
   * AzureWIProviderFactory.Create: validate the environment and the
   * configured client ID, acquire the first AAD token, and build a provider
   * holding them. Its AAD collaborator repeats the acquisition, gate three
   * included, against the same environment.
   */
  method Create(env: map<string, string>, configClientID: string, acquire: Validation.AcquireToken,
                getRegistryHost: string -> Result<string, string>,
                authClientFactory: string -> Result<AuthClient, string>,
                acrWindow: int, refreshMargin: int, now: Instant)
    returns (r: Result<WIAuthProvider, Error>)
    ensures var settings := Validation.Create(env, configClientID, acquire, now, AADResource);
      match settings
      case Failure(e) => r == Failure(e)
      case Success(v) =>
        && r.Success? && fresh(r.value)
        && r.value.tenantID == v.identity.tenantID && r.value.clientID == v.identity.clientID
        && r.value.aadToken == v.token && r.value.calls == []
        && r.value.getRegistryHost == getRegistryHost && r.value.authClientFactory == authClientFactory
        && r.value.acrWindow == acrWindow && r.value.refreshMargin == refreshMargin
        && (forall at, t, c, res :: r.value.getAADAccessToken(at, t, c, res)
                                    == Validation.AcquireAADAccessToken(env, acquire, at, t, c, res))
        && (r.value.Enabled() <==> v.token.accessToken != "")
  {
    var settings := Validation.Create(env, configClientID, acquire, now, AADResource);
    if settings.Failure? {
      return Failure(settings.error);
    }
    var getAADAccessToken := (at: Instant, tenantID: string, clientID: string, resource: string) =>
      Validation.AcquireAADAccessToken(env, acquire, at, tenantID, clientID, resource);
    var provider := new WIAuthProvider(getRegistryHost, getAADAccessToken, authClientFactory, acrWindow, refreshMargin);
    provider.tenantID := settings.value.identity.tenantID;
    provider.clientID := settings.value.identity.clientID;
    provider.aadToken := settings.value.token;
    r := Success(provider);
  }
}
