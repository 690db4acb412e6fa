/**
 * Construction-time validation of the workload-identity provider: the
 * ordered gates over the process environment and the optional clientID of
 * the provider configuration, then the AAD token acquisition.
 *
 * The environment is a map; a variable that is not set reads as "", as
 * os.Getenv does. A configuration clientID of "" means none was provided.
 */
module Validation {
  import opened Wrappers
  import opened Expiry
  import opened AuthTypes

  const TenantIDEnv := "AZURE_TENANT_ID"
  const ClientIDEnv := "AZURE_CLIENT_ID"
  const FederatedTokenFileEnv := "AZURE_FEDERATED_TOKEN_FILE"
  const AuthorityHostEnv := "AZURE_AUTHORITY_HOST"

  const TenantIDEmptyDetail := "azure tenant id environment variable is empty"
  const ClientIDEmptyDetail := "no client ID provided and AZURE_CLIENT_ID environment variable is empty"

  /** The detail of the third gate; it prints the values of both variables. */
  function MissingEnvDetail(tokenFilePath: string, authorityHost: string): string {
    "required environment variables not set, AZURE_FEDERATED_TOKEN_FILE: " + tokenFilePath
      + ", AZURE_AUTHORITY_HOST: " + authorityHost
  }

  function Getenv(env: map<string, string>, key: string): string {
    if key in env then env[key] else ""
  }

  /**
   * The MSAL confidential-client token request, which is foreign code:
   * (now, tenantID, clientID, resource, tokenFilePath, authorityHost) to a
   * token or an error message.
   */
  type AcquireToken = (Instant, string, string, string, string, string) -> Result<AuthResult, string>

  datatype Identity = Identity(tenantID: string, clientID: string)

  /** Gates one and two: the tenant from the environment, then the client ID. */
  function ResolveIdentity(env: map<string, string>, configClientID: string): (r: Result<Identity, Error>)
    ensures Getenv(env, TenantIDEnv) == "" ==> r == Failure(AuthDenied(TenantIDEmptyDetail))
    ensures Getenv(env, TenantIDEnv) != "" && configClientID == "" && Getenv(env, ClientIDEnv) == "" ==>
              r == Failure(AuthDenied(ClientIDEmptyDetail))
    ensures r.Success? <==> Getenv(env, TenantIDEnv) != "" && (configClientID != "" || Getenv(env, ClientIDEnv) != "")
    ensures r.Success? ==> r.value.tenantID == Getenv(env, TenantIDEnv) && r.value.clientID != ""
    ensures r.Success? && configClientID != "" ==> r.value.clientID == configClientID
    ensures r.Success? && configClientID == "" ==> r.value.clientID == Getenv(env, ClientIDEnv)
  {
    var tenantID := Getenv(env, TenantIDEnv);
    if tenantID == "" then
      Failure(AuthDenied(TenantIDEmptyDetail))
    else
      var clientID := if configClientID != "" then configClientID else Getenv(env, ClientIDEnv);
      if clientID == "" then
        Failure(AuthDenied(ClientIDEmptyDetail))
      else
        Success(Identity(tenantID, clientID))
  }

  /**
   * GetAADAccessToken: gate three (the federated token file and the
   * authority host must both be set), then the token request.
   */
  function AcquireAADAccessToken(env: map<string, string>, acquire: AcquireToken, now: Instant,
                                 tenantID: string, clientID: string, resource: string): (r: Result<AuthResult, Error>)
    ensures var tokenFilePath, authorityHost := Getenv(env, FederatedTokenFileEnv), Getenv(env, AuthorityHostEnv);
      (tokenFilePath == "" || authorityHost == "" ==>
         r == Failure(AuthDenied(MissingEnvDetail(tokenFilePath, authorityHost))))
      && (tokenFilePath != "" && authorityHost != "" ==>
         match acquire(now, tenantID, clientID, resource, tokenFilePath, authorityHost)
             case Success(token) => r == Success(token)
             case Failure(msg) => r == Failure(TokenAcquisitionFailed(msg)))
  {
    var tokenFilePath := Getenv(env, FederatedTokenFileEnv);
    var authorityHost := Getenv(env, AuthorityHostEnv);
    if tokenFilePath == "" || authorityHost == "" then
      Failure(AuthDenied(MissingEnvDetail(tokenFilePath, authorityHost)))
    else
      match acquire(now, tenantID, clientID, resource, tokenFilePath, authorityHost)
      case Success(token) => Success(token)
      case Failure(msg) => Failure(TokenAcquisitionFailed(msg))
  }

  datatype Settings = Settings(identity: Identity, token: AuthResult)

  /**
   * Everything construction checks and acquires before a provider exists:
   * the three gates in order, stopping at the first that fails, then the
   * initial AAD token for the given resource.
   */
  function Create(env: map<string, string>, configClientID: string, acquire: AcquireToken,
                  now: Instant, resource: string): (r: Result<Settings, Error>)
    ensures Getenv(env, TenantIDEnv) == "" ==> r == Failure(AuthDenied(TenantIDEmptyDetail))
    ensures Getenv(env, TenantIDEnv) != "" && configClientID == "" && Getenv(env, ClientIDEnv) == "" ==>
              r == Failure(AuthDenied(ClientIDEmptyDetail))
    ensures ResolveIdentity(env, configClientID).Success? &&
              (Getenv(env, FederatedTokenFileEnv) == "" || Getenv(env, AuthorityHostEnv) == "") ==>
              r == Failure(AuthDenied(MissingEnvDetail(Getenv(env, FederatedTokenFileEnv), Getenv(env, AuthorityHostEnv))))
    ensures ResolveIdentity(env, configClientID).Success? &&
              Getenv(env, FederatedTokenFileEnv) != "" && Getenv(env, AuthorityHostEnv) != "" ==>
              var identity := ResolveIdentity(env, configClientID).value;
              match acquire(now, identity.tenantID, identity.clientID, resource,
                            Getenv(env, FederatedTokenFileEnv), Getenv(env, AuthorityHostEnv))
              case Success(token) => r == Success(Settings(identity, token))
              case Failure(msg) => r == Failure(TokenAcquisitionFailed(msg))
    ensures r.Success? ==>
              r.value.identity == ResolveIdentity(env, configClientID).value &&
              acquire(now, r.value.identity.tenantID, r.value.identity.clientID, resource,
                      Getenv(env, FederatedTokenFileEnv), Getenv(env, AuthorityHostEnv)) == Success(r.value.token)
  {
    match ResolveIdentity(env, configClientID)
    case Failure(e) => Failure(e)
    case Success(identity) =>
      match AcquireAADAccessToken(env, acquire, now, identity.tenantID, identity.clientID, resource)
      case Failure(e) => Failure(e)
      case Success(token) => Success(Settings(identity, token))
  }

  /**
   * The three detail strings differ, so a caller matching on the detail
   * always knows which gate refused the configuration.
   */
  lemma DetailsIdentifyGate(tokenFilePath: string, authorityHost: string)
    ensures TenantIDEmptyDetail != ClientIDEmptyDetail
    ensures MissingEnvDetail(tokenFilePath, authorityHost) != TenantIDEmptyDetail
    ensures MissingEnvDetail(tokenFilePath, authorityHost) != ClientIDEmptyDetail
  {
  }

  /**
   * The sequence of TestAzureWIValidation_EnvironmentVariables_ExpectedResults:
   * each configuration and environment it sets up, and the detail it expects.
   */
  lemma ValidationTestSequence(acquire: AcquireToken, now: Instant, resource: string)
    ensures Create(map[TenantIDEnv := ""], "", acquire, now, resource)
              == Failure(AuthDenied("azure tenant id environment variable is empty"))
    ensures Create(map[TenantIDEnv := "tenant id"], "client id from config", acquire, now, resource)
              == Failure(AuthDenied("required environment variables not set, AZURE_FEDERATED_TOKEN_FILE: , AZURE_AUTHORITY_HOST: "))
    ensures Create(map[TenantIDEnv := "tenant id"], "", acquire, now, resource)
              == Failure(AuthDenied("no client ID provided and AZURE_CLIENT_ID environment variable is empty"))
    ensures Create(map[TenantIDEnv := "tenant id", ClientIDEnv := "client id"], "", acquire, now, resource)
              == Failure(AuthDenied("required environment variables not set, AZURE_FEDERATED_TOKEN_FILE: , AZURE_AUTHORITY_HOST: "))
  {
    var env := map[TenantIDEnv := "tenant id"];
    assert ResolveIdentity(env, "client id from config") == Success(Identity("tenant id", "client id from config"));
    assert Getenv(env, FederatedTokenFileEnv) == "" && Getenv(env, AuthorityHostEnv) == "";
    assert MissingEnvDetail("", "") == "required environment variables not set, AZURE_FEDERATED_TOKEN_FILE: , AZURE_AUTHORITY_HOST: ";
  }
}
