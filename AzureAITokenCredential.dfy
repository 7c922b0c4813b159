/** The token credential dedicated to Azure AI: whatever scopes a client asks
    for, it serves the broker's Azure AI token. */
module AzureAITokenCredential {
  import opened Wrappers
  import opened AzureCore
  import MultiResourceTokenService
  import MultiResourceTokenCredential

  /** GetTokenAsync: the broker's Azure AI token, stamped to expire 55 minutes
      from now; a broker error is logged and rethrown unchanged. The requested
      scopes are only logged. */
  function GetTokenAsync(tokenService: MultiResourceTokenService.TokenService,
                         requestContext: TokenRequestContext, now: int): (r: Result<AccessToken>)
    ensures IssuedFrom(r, tokenService.azureAI, now + 55 * Minute)
    ensures r.Ok? ==> r.value.ExpiresOn > now
  {
    match tokenService.azureAI
    case Ok(accessToken) => Ok(AccessToken(accessToken, now + 55 * Minute))
    case Err(fault) => Err(fault)
  }

  /** GetToken blocks on GetTokenAsync and returns or throws what it does. */
  function GetToken(tokenService: MultiResourceTokenService.TokenService,
                    requestContext: TokenRequestContext, now: int): (r: Result<AccessToken>)
    ensures r == GetTokenAsync(tokenService, requestContext, now)
  {
    GetTokenAsync(tokenService, requestContext, now)
  }

  /** For any request the multi-resource credential routes to Azure AI, this
      credential gives the same answer; for any other request it may differ,
      since it still serves the Azure AI token. */
  lemma AgreesWithMultiResourceOnAzureAIRequests(tokenService: MultiResourceTokenService.TokenService,
                                                 requestContext: TokenRequestContext, now: int)
    requires MultiResourceTokenCredential.IsAzureAIRequest(requestContext.Scopes)
    ensures GetTokenAsync(tokenService, requestContext, now)
         == MultiResourceTokenCredential.GetTokenAsync(tokenService, requestContext, now)
  {
    IssuedFromUnique(GetTokenAsync(tokenService, requestContext, now),
                     MultiResourceTokenCredential.GetTokenAsync(tokenService, requestContext, now),
                     tokenService.azureAI, now + 55 * Minute);
  }
}
