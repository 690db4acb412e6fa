/** Values shared by construction-time validation and the credential flow. */
module AuthTypes {
  import opened Expiry

  /** The AAD access token as the MSAL confidential client returns it. */
  datatype AuthResult = AuthResult(accessToken: string, expiresOn: Instant)

  /** The token a freshly built provider holds before its first acquisition. */
  const ZeroAuthResult: AuthResult := AuthResult("", 0)

  /**
   * The errors of the provider. Collaborator failures carry the
   * collaborator's own message, wrapped with the step that failed.
   */
  datatype Error =
    | AuthDenied(detail: string)                // construction-time gate, with its detail
    | TokenAcquisitionFailed(cause: string)     // the MSAL token request failed
    | HostNameInvalid(cause: string)            // the artifact's registry host could not be resolved
    | RefreshFailed(reason: Error)              // the AAD token refresh in Provide failed
    | ClientCreationFailed(cause: string)       // the authentication client factory failed
    | ExchangeFailed(cause: string)             // the ACR refresh-token exchange failed
    | MissingRefreshToken                       // the exchange response carried no refresh token
}
