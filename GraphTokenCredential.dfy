/** The token credential dedicated to Microsoft Graph: whatever scopes a
    client asks for, it serves the broker's Graph token. */
module GraphTokenCredential {
  import opened Wrappers
  import opened AzureCore
  import MultiResourceTokenService
  import MultiResourceTokenCredential

  /** GetTokenAsync: the broker's Graph token, stamped to expire 55 minutes
      from now; a broker error is logged and rethrown unchanged. */
  function GetTokenAsync(tokenService: MultiResourceTokenService.TokenService,
                         requestContext: TokenRequestContext, now: int): (r: Result<AccessToken>)
    ensures IssuedFrom(r, tokenService.graph, now + 55 * Minute)
    ensures r.Ok? ==> r.value.ExpiresOn > now
  {
    match tokenService.graph
    case Ok(token) => Ok(AccessToken(token, now + 55 * Minute))
    case Err(fault) => Err(fault)
  }

  /** GetToken blocks on GetTokenAsync and returns or throws what it does. */
  function GetToken(tokenService: MultiResourceTokenService.TokenService,
                    requestContext: TokenRequestContext, now: int): (r: Result<AccessToken>)
    ensures r == GetTokenAsync(tokenService, requestContext, now)
  {
    GetTokenAsync(tokenService, requestContext, now)
  }

  /** For any request the multi-resource credential routes to Graph (among
      them every request without scopes), this credential gives the same
      answer. */
  lemma AgreesWithMultiResourceOnGraphRequests(tokenService: MultiResourceTokenService.TokenService,
                                               requestContext: TokenRequestContext, now: int)
    requires !MultiResourceTokenCredential.IsAzureAIRequest(requestContext.Scopes)
    ensures GetTokenAsync(tokenService, requestContext, now)
         == MultiResourceTokenCredential.GetTokenAsync(tokenService, requestContext, now)
  {
    IssuedFromUnique(GetTokenAsync(tokenService, requestContext, now),
                     MultiResourceTokenCredential.GetTokenAsync(tokenService, requestContext, now),
                     tokenService.graph, now + 55 * Minute);
  }
}
