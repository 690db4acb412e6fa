# Azure workload-identity auth provider (Ratify), modelled in Dafny

Ratify verifies container artifacts. To pull them from Azure Container Registry (ACR) without static secrets, it uses `WIAuthProvider`. This provider authenticates through Azure AD workload identity, in two hops:

1. A federated identity token is exchanged for an AAD access token.
2. The AAD access token is exchanged for an ACR refresh token.

The provider caches the AAD token, refreshes it when it goes stale, and returns the ACR refresh token as the password of a registry credential.

The model covers:

- `Enabled`.
- `getACRExpiryIfEarlier`, which reconciles the ACR and AAD expiries.
- `Provide`, the credential state machine.
- The construction-time validation of the environment and the configured client ID.

The behaviour modelled is what the provider's unit tests pin down.

Files:

- `wrappers.dfy`: `Option` and `Result`.
- `expiry.dfy` (module `Expiry`): time as integer nanoseconds, the expiry reconciliation, and the staleness decision.
- `auth_types.dfy` (module `AuthTypes`): the AAD token and the error kinds.
- `validation.dfy` (module `Validation`): the three ordered gates over the environment map and the configured client ID, then the initial token acquisition.
- `credential_flow.dfy` (module `CredentialFlow`): `Provide` as a function of the provider's state, the current instant and the artifact. It returns the result, the cache it leaves and the log of collaborator calls. The module also has lemmas about single calls and about sequences of calls.
- `provider.dfy` (module `WorkloadIdentity`): the class `WIAuthProvider`. `Provide` is an imperative method with early returns that updates the cached `aadToken` field in place. It is proved to agree with `CredentialFlow.Provide`. The module also has the factory step `Create`.
- `scenarios.dfy` (module `Scenarios`): each unit test replayed against the class. The stand-in collaborators are lambdas.

Two things are injected rather than modelled:

- **The clock.** The current instant is an explicit argument.
- **The collaborators.** Host resolution, AAD token acquisition, the authentication-client factory and the client's exchange are arbitrary total functions held in fields. Every property below therefore holds whatever they answer. The AAD acquisition and the exchange also receive the current instant.

The ACR default window and the staleness margin are not pinned by the tests, so they are parameters. The bounds the tests imply are `ValidACRWindow` (between 12 minutes and 12 hours, both exclusive) and `ValidRefreshMargin` (at least 0 and under one hour). A token counts as stale when it expires no later than `now + margin`. Under that rule, a token expiring exactly at `now` is stale for every admissible margin, as the refresh test needs.

## Model

| member | source | states |
|---|---|---|
| Expiry.GetACRExpiryIfEarlier | pkg/common/oras/authprovider/azure/azureworkloadidentity_test.go:95-107 | the credential expiry is no later than the AAD expiry and no later than now + ACR window, and equals one of the two (the minimum) |
| Expiry.ACRExpiryTestCases | pkg/common/oras/authprovider/azure/azureworkloadidentity_test.go:95-107 | for every window in (12min, 12h): an AAD expiry 12h ahead gives the ACR bound, which differs from it; an AAD expiry 12min ahead is returned exactly |
| Expiry.StalenessTestCases | pkg/common/oras/authprovider/azure/azureworkloadidentity_test.go:231-235 | for every admissible margin, a token expiring now is stale and one expiring an hour ahead is fresh (the two cached tokens of the Provide tests) |
| Validation.ResolveIdentity | pkg/common/oras/authprovider/azure/azureworkloadidentity_test.go:116-150 | an empty AZURE_TENANT_ID fails with the tenant detail whatever else is set; with a tenant, no config clientID and no AZURE_CLIENT_ID it fails with the client detail; it succeeds exactly when both gates pass, with the config clientID taking precedence over the environment |
| Validation.AcquireAADAccessToken | pkg/common/oras/authprovider/azure/azureworkloadidentity_test.go:138-143 | if the federated token file or the authority host is empty, it fails with one detail printing both variables and their values; otherwise it returns the token acquisition's token, or its error wrapped |
| Validation.Create | pkg/common/oras/authprovider/azure/azureworkloadidentity_test.go:111-165 | the gates run in order (tenant, client, federated file/authority host) and the first failing one decides the detail; when all pass, a successful acquisition gives Success with the resolved identity and its token, and a failed one gives TokenAcquisitionFailed with its message; a success always carries the resolved identity and the token the acquisition issued for it |
| Validation.DetailsIdentifyGate | pkg/common/oras/authprovider/azure/azureworkloadidentity_test.go:123-147 | the three detail strings are pairwise distinct for all variable values, so the detail identifies the failing gate |
| Validation.ValidationTestSequence | pkg/common/oras/authprovider/azure/azureworkloadidentity_test.go:111-165 | the four configurations of the validation test produce exactly the four expected auth-denied details |
| CredentialFlow.Refresh | pkg/common/oras/authprovider/azure/azureworkloadidentity_test.go:262-301 | a fresh cached token is used as is; a stale one is replaced by what the AAD collaborator answers for (tenant, client, resource) at now |
| CredentialFlow.Provide | pkg/common/oras/authprovider/azure/azureworkloadidentity_test.go:223-312 | host resolution is always the first call, and its failure ends the call with nothing else invoked and the cache untouched; once the host resolves, a failed token step yields RefreshFailed with its message and ends the call after the AAD request, a failed client construction yields ClientCreationFailed with its message and ends the call with the factory call and no exchange, a failed exchange yields ExchangeFailed with its message and a response without a refresh token yields MissingRefreshToken, and conversely each of these kinds arises only from its own step; the cache only changes to a token the AAD collaborator issued, never on a failed refresh, and once the host resolves and the token step succeeds the cache holds that step's token whatever happens later; an exchange failure or a response without a refresh token leaves the exchange as the last call; a credential means the exchange was made with grant type "access_token", service = the resolved host and the presented token, and its password is the exchanged refresh token unchanged, its expiry the reconciled one |
| CredentialFlow.ProvideReturnsExchangedToken | pkg/common/oras/authprovider/azure/azureworkloadidentity_test.go:287-298 | whenever host, token step, factory and exchange succeed with a refresh token (the empty one included), Provide returns exactly that token as password and caches the token it presented |
| CredentialFlow.ProvideRefreshCount | pkg/common/oras/authprovider/azure/azureworkloadidentity_test.go:253-300 | one Provide call asks the AAD collaborator exactly once when the host resolves and the cache is stale, and not at all otherwise |
| CredentialFlow.RefreshesAtMostOncePerCall | pkg/common/oras/authprovider/azure/azureworkloadidentity_test.go:223-301 | over any sequence of calls on one provider, the number of AAD token requests is at most the number of calls |
| CredentialFlow.FreshTokenIsReused | pkg/common/oras/authprovider/azure/azureworkloadidentity_test.go:223-260 | if the cached token is fresh at every call's instant, no call asks for a new one and the cache keeps it |
| CredentialFlow.CacheHoldsIssuedTokens | pkg/common/oras/authprovider/azure/azureworkloadidentity_test.go:262-301 | after any sequence of calls the cache holds the initial token or a token the AAD collaborator issued at one of the calls' instants |
| WorkloadIdentity.WIAuthProvider.constructor | pkg/common/oras/authprovider/azure/azureworkloadidentity_test.go:177-178 | a new provider holds the given collaborators, no tenant, no client and the zero token |
| WorkloadIdentity.WIAuthProvider.Enabled | pkg/common/oras/authprovider/azure/azureworkloadidentity_test.go:63-93 | true exactly when tenantID, clientID and the cached access token are all non-empty |
| WorkloadIdentity.WIAuthProvider.Provide | pkg/common/oras/authprovider/azure/azureworkloadidentity_test.go:223-312 | the in-place method returns the credential-flow result, leaves exactly the cache it prescribes, appends exactly its calls to the log, and changes nothing else |
| WorkloadIdentity.Create | pkg/common/oras/authprovider/azure/azureworkloadidentity_test.go:111-165 | a validation failure is returned as is; otherwise a fresh provider holds the validated tenant and client and the acquired token, and it is Enabled exactly when that token is non-empty; its AAD collaborator repeats the acquisition, gate three included, against the same environment |
| Scenarios.EnabledScenario | pkg/common/oras/authprovider/azure/azureworkloadidentity_test.go:63-93 | the Enabled truth table of the test: true with all three fields set, then false after clearing tenant, client and token in turn |
| Scenarios.ProvideSuccessScenario | pkg/common/oras/authprovider/azure/azureworkloadidentity_test.go:223-260 | with a token fresh for an hour, Provide returns "mocked_refresh_token" as password, and the call log is host, factory for "https://myregistry.azurecr.io", then the exchange for that host with the cached token, with no AAD request |
| Scenarios.ProvideRefreshScenario | pkg/common/oras/authprovider/azure/azureworkloadidentity_test.go:262-301 | with a token expiring now, Provide asks the AAD collaborator once, caches its new token, exchanges that token and succeeds with the empty refresh token as password |
| Scenarios.InvalidHostScenario | pkg/common/oras/authprovider/azure/azureworkloadidentity_test.go:303-312 | a zero provider whose host resolution fails returns the host error, and host resolution is the only call, although its zero token (expiring at instant 0) is stale at any instant from 0 on |
| Scenarios.ReplacedFactoryScenario | pkg/common/oras/authprovider/azure/azureworkloadidentity_test.go:168-221 | the tests call the replaceable authClientFactory field directly; the scenario carries them through Provide, which calls whichever factory is installed with "https://myregistry.azurecr.io": a failing factory's message is kept, wrapped as ClientCreationFailed, and a succeeding one leads to the exchange |
| Scenarios.ClientMockCheckIsVacuous | pkg/common/oras/authprovider/azure/azureworkloadidentity_test.go:256-257 | even a call that does refresh the AAD token leaves the client mock's record without an AAD request |

## Findings

| source | as written | input that shows it | evidently intended | confidence | as-written member | corrected member |
|---|---|---|---|---|---|---|
| pkg/common/oras/authprovider/azure/azureworkloadidentity_test.go:256-257 | the check that GetAADAccessToken was not called is made on the authentication-client mock, which only receives exchange calls | a provider whose cached token is stale: it refreshes, yet the client mock's record holds no AAD request, so the check still passes | check the whole call log, or the AAD collaborator's mock, for the absence of a token request | not executed; high | Scenarios.ClientMockCheckIsVacuous | Scenarios.ProvideSuccessScenario |

## Left out

- Metrics: `reportMetrics` and the elapsed-time measurement around the exchange are not modelled. They are telemetry that cannot change a result.
- Concurrency: concurrent `Provide` calls on one provider are not modelled. Calls are sequential; `CredentialFlow.ProvideAll` chains them.
- Cancellation: the Go context is not modelled, and neither is cancellation.
- Foreign code: registry-host parsing, the MSAL confidential-client token request, the Azure SDK authentication client and the network exchange are arbitrary functions supplied by the caller.
- Provider registry: the lookup that `CreateAuthProviderFromConfig` makes on the name "azureWorkloadIdentity" is not modelled. `Create` receives the configured clientID directly, and "" means none was given.
- Environment at refresh time: the process environment is a map read when `Create` runs. The AAD collaborator that `Create` installs keeps that map, while the Go code reads the live environment on every refresh.
- Window and margin constants: the ACR default window and the staleness margin are parameters, limited only by the bounds above.
- `AADResource` and `TokenLoginUsername`: these constants carry the ACR scope and the token-login user name. The tests do not pin either of them.
- Error codes: Ratify's error codes, links and stack-trace options are not modelled. Errors are the `AuthTypes.Error` kinds, and each construction gate carries its exact detail string.
- Nil refresh token: an exchange response without a refresh token is modelled as the error `MissingRefreshToken`, because returning an empty credential would hide a malformed response. The tests only exercise an empty refresh token that is present.
- Federated-variable detail: the test's expected string prints both variable names with their values, so the model prints both, whichever one is empty.
