/** The credential vocabulary of the Azure SDK that the token credentials
    implement: a token request context, an access token with its expiry, and
    the relation between a broker's answer and the access token a credential
    builds from it. Instants are whole seconds. */
module AzureCore {
  import opened Wrappers

  const Minute: int := 60
  const Hour: int := 60 * Minute

  /** TokenRequestContext: the scopes a client asks for (a possibly null
      array). */
  datatype TokenRequestContext = TokenRequestContext(Scopes: Option<seq<string>>)

  /** AccessToken: the bearer token and the instant it stops being valid. */
  datatype AccessToken = AccessToken(Token: string, ExpiresOn: int)

  /** `r` is what a credential returns when the broker answered `source` and
      the credential stamps a successful token with `expiresOn`: the token
      text passes through unchanged, and an exception is rethrown as it is. */
  ghost predicate IssuedFrom(r: Result<AccessToken>, source: Result<string>, expiresOn: int) {
    && (r.Ok? <==> source.Ok?)
    && (r.Ok? ==> r.value == AccessToken(source.value, expiresOn))
    && (r.Err? ==> r.fault == source.fault)
  }

  /** A credential's answer is determined by the broker's answer and the
      expiry it stamps. */
  lemma IssuedFromUnique(r1: Result<AccessToken>, r2: Result<AccessToken>, source: Result<string>, expiresOn: int)
    requires IssuedFrom(r1, source, expiresOn) && IssuedFrom(r2, source, expiresOn)
    ensures r1 == r2
  {
  }
}
