/** The action filter that makes sure a signed-in user can get an Azure AI
    token before the action runs, and sends the user to a consent challenge
    when the identity layer asks for one. */
module AuthorizeForAzureAIScopesAttribute {
  import opened Wrappers
  import opened AspNet
  import Text
  import MultiResourceTokenService

  /** The scopes the filter requests. */
  const Scopes: seq<string> := ["https://cognitiveservices.azure.com/.default"]

  /** The authentication scheme the consent challenge is issued for. */
  const ChallengeScheme: string := "OpenIdConnect"

  /** ActionExecutingContext, reduced to the Result a filter may set to
      short-circuit the action. */
  class ActionExecutingContext {
    var Result: Option<ActionResult>

    constructor ()
      ensures Result == None
    {
      Result := None;
    }
  }

  /** The filter asks for exactly the broker's Azure AI scope, and the
      challenge's "scopes" item is that scope. */
  lemma ScopesAreTheAzureAIScopes()
    ensures Scopes == MultiResourceTokenService.AzureAIScopes
    ensures Text.Join(" ", Scopes) == "https://cognitiveservices.azure.com/.default"
  {
  }

  /** OnActionExecutionAsync. `tokenAcquisition` is what the request services
      resolve for ITokenAcquisition (None when nothing is registered). The
      returned steps are the token request and the invocation of the next
      stage, as far as they happen. */
  method OnActionExecution(context: ActionExecutingContext, user: Option<ClaimsPrincipal>,
                           tokenAcquisition: Option<MultiResourceTokenService.TokenAcquisition>)
    returns (steps: seq<FilterStep>)
    modifies context
    // without an authenticated user or a token service: no token request, straight on
    ensures !IsAuthenticated(user) || tokenAcquisition.None? ==>
              steps == [InvokeNext] && context.Result == old(context.Result)
    // a token is obtained: straight on, Result untouched
    ensures IsAuthenticated(user) && tokenAcquisition.Some? && tokenAcquisition.value(Scopes).Ok? ==>
              steps == [AcquireToken(Scopes), InvokeNext] && context.Result == old(context.Result)
    // consent required: a challenge carrying the requested scopes, and the action does not run
    ensures IsAuthenticated(user) && tokenAcquisition.Some? && tokenAcquisition.value(Scopes).Err?
            && tokenAcquisition.value(Scopes).fault.ConsentRequired? ==>
              steps == [AcquireToken(Scopes)]
              && context.Result == Some(Challenge(ChallengeScheme, map["scopes" := "https://cognitiveservices.azure.com/.default"]))
    // any other error: Unauthorized, and the action does not run
    ensures IsAuthenticated(user) && tokenAcquisition.Some? && tokenAcquisition.value(Scopes).Err?
            && !tokenAcquisition.value(Scopes).fault.ConsentRequired? ==>
              steps == [AcquireToken(Scopes)] && context.Result == Some(Unauthorized)
  {
    steps := [];
    if IsAuthenticated(user) {
      if tokenAcquisition.Some? {
        steps := steps + [AcquireToken(Scopes)];
        match tokenAcquisition.value(Scopes) {
          case Ok(_) =>
          case Err(ConsentRequired(_)) =>
            var items: map<string, string> := map[];
            items := items["scopes" := Text.Join(" ", Scopes)];
            context.Result := Some(Challenge(ChallengeScheme, items));
            return;
          case Err(_) =>
            context.Result := Some(Unauthorized);
            return;
        }
      }
    }
    steps := steps + [InvokeNext];
  }
}
