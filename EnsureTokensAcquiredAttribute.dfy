/** The action filter that pre-warms both tokens for a signed-in user and
    then always lets the request through. */
module EnsureTokensAcquiredAttribute {
  import opened Wrappers
  import opened AspNet
  import MultiResourceTokenService

  /** How OnActionExecutionAsync ended: the steps it took, in order, and the
      context's Result afterwards. */
  datatype FilterRun = FilterRun(steps: seq<FilterStep>, result: Option<ActionResult>)

  /** The number of times the next stage was invoked. */
  function NextCount(steps: seq<FilterStep>): nat {
    if steps == [] then 0 else (if steps[0] == InvokeNext then 1 else 0) + NextCount(steps[1..])
  }

  /** OnActionExecutionAsync. `tokenService` is what the request services
      resolve for IMultiResourceTokenService (None when nothing is
      registered), `loggerResolved` whether a logger resolves, and
      `contextResult` the context's Result on entry. Pre-warming runs only for
      an authenticated user when both resolve; whatever it does, including
      throwing, the next stage is invoked exactly once, last, and Result is
      left as it was. */
  function OnActionExecution(user: Option<ClaimsPrincipal>,
                             tokenService: Option<MultiResourceTokenService.TokenService>,
                             loggerResolved: bool, contextResult: Option<ActionResult>): (r: FilterRun)
    ensures |r.steps| > 0 && r.steps[|r.steps| - 1] == InvokeNext
    ensures NextCount(r.steps) == 1
    ensures PrewarmTokens in r.steps <==> IsAuthenticated(user) && tokenService.Some? && loggerResolved
    ensures r.result == contextResult
    // at most one pre-warm, no token request of its own
    ensures r.steps == if IsAuthenticated(user) && tokenService.Some? && loggerResolved
                       then [PrewarmTokens, InvokeNext] else [InvokeNext]
  {
    if IsAuthenticated(user) && tokenService.Some? && loggerResolved then
      match tokenService.value.prewarm
      case Ok(_) => FilterRun([PrewarmTokens, InvokeNext], contextResult)
      // catch (Exception): the failure is logged and the request continues
      case Err(_) => FilterRun([PrewarmTokens, InvokeNext], contextResult)
    else
      FilterRun([InvokeNext], contextResult)
  }

  /** A failing pre-warm never blocks the request: two token services that
      differ in how pre-warming ends lead to the same run. */
  lemma PrewarmFailureDoesNotBlock(user: Option<ClaimsPrincipal>,
                                   service: MultiResourceTokenService.TokenService, fault: Fault,
                                   loggerResolved: bool, contextResult: Option<ActionResult>)
    ensures OnActionExecution(user, Some(service.(prewarm := Err(fault))), loggerResolved, contextResult)
         == OnActionExecution(user, Some(service.(prewarm := Ok(()))), loggerResolved, contextResult)
  {
  }
}
