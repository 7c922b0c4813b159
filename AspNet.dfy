/** The ASP.NET Core vocabulary the filters and the controller use: the
    signed-in principal, the short-circuit results a filter can set, and the
    observable steps a filter takes. */
module AspNet {
  import opened Wrappers

  /** The principal's identity: whether it is authenticated, and its name. */
  datatype Identity = Identity(IsAuthenticated: bool, Name: Option<string>)

  /** ClaimsPrincipal, with its possibly null primary identity. */
  datatype ClaimsPrincipal = ClaimsPrincipal(Identity: Option<Identity>)

  /** User?.Identity?.IsAuthenticated == true: a missing principal or
      identity counts as not authenticated. */
  predicate IsAuthenticated(user: Option<ClaimsPrincipal>) {
    user.Some? && user.value.Identity.Some? && user.value.Identity.value.IsAuthenticated
  }

  /** User?.Identity?.Name. */
  function UserName(user: Option<ClaimsPrincipal>): Option<string> {
    if user.Some? && user.value.Identity.Some? then user.value.Identity.value.Name else None
  }

  /** The results a filter can put in context.Result to short-circuit the
      action: a ChallengeResult for an authentication scheme with the items of
      its AuthenticationProperties, or an UnauthorizedResult. */
  datatype ActionResult =
    | Challenge(scheme: string, items: map<string, string>)
    | Unauthorized

  /** What a filter does that its caller can observe: ask the identity layer
      for a token, run the token service's pre-warming, or invoke the next
      stage of the pipeline. */
  datatype FilterStep = AcquireToken(scopes: seq<string>) | PrewarmTokens | InvokeNext
}
