/** The token credential that asks the identity layer directly for a fixed
    set of scopes chosen when it is constructed. */
module DelegateTokenCredential {
  import opened Wrappers
  import opened AzureCore
  import MultiResourceTokenService

  /** The message of the exception that replaces a consent-required error. */
  const ConsentMessage: string := "Additional consent required for Azure AI services access"

  /** GetTokenAsync: asks for the constructor-supplied scopes (the request
      context's scopes play no part), stamps a token to expire one hour from
      now, turns a consent-required error into an UnauthorizedAccessException
      and rethrows every other error unchanged. */
  function GetTokenAsync(tokenAcquisition: MultiResourceTokenService.TokenAcquisition, scopes: seq<string>,
                         requestContext: TokenRequestContext, now: int): (r: Result<AccessToken>)
    ensures tokenAcquisition(scopes).Ok? ==> r == Ok(AccessToken(tokenAcquisition(scopes).value, now + Hour))
    ensures tokenAcquisition(scopes).Err? && tokenAcquisition(scopes).fault.ConsentRequired? ==>
              r == Err(UnauthorizedAccess(ConsentMessage))
    ensures tokenAcquisition(scopes).Err? && !tokenAcquisition(scopes).fault.ConsentRequired? ==>
              r == Err(tokenAcquisition(scopes).fault)
    ensures r.Err? ==> !r.fault.ConsentRequired?
    ensures r.Ok? ==> r.value.ExpiresOn > now
  {
    match tokenAcquisition(scopes)
    case Ok(token) => Ok(AccessToken(token, now + Hour))
    case Err(ConsentRequired(_)) => Err(UnauthorizedAccess(ConsentMessage))
    case Err(fault) => Err(fault)
  }

  /** GetToken blocks on GetTokenAsync and returns or throws what it does. */
  function GetToken(tokenAcquisition: MultiResourceTokenService.TokenAcquisition, scopes: seq<string>,
                    requestContext: TokenRequestContext, now: int): (r: Result<AccessToken>)
    ensures r == GetTokenAsync(tokenAcquisition, scopes, requestContext, now)
  {
    GetTokenAsync(tokenAcquisition, scopes, requestContext, now)
  }
}
