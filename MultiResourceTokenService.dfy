/** The credential broker: acquires delegated user tokens for Microsoft Graph
    and for Azure AI through the identity layer, and pre-warms both. */
module MultiResourceTokenService {
  import opened Wrappers

  /** The resource prefix of every Graph scope. */
  const GraphResource: string := "https://graph.microsoft.com/"

  /** The scopes requested for the Graph token, in this order. */
  const GraphScopes: seq<string> := [
    GraphResource + "Files.Read.All",
    GraphResource + "Sites.Read.All",
    GraphResource + "Mail.Send",
    GraphResource + "User.Read.All"
  ]

  /** The scopes requested for the Azure AI token. */
  const AzureAIScopes: seq<string> := ["https://cognitiveservices.azure.com/.default"]

  /** ITokenAcquisition.GetAccessTokenForUserAsync: what the identity layer
      answers when asked for a user token with the given scopes. */
  type TokenAcquisition = seq<string> -> Result<string>

  /** IMultiResourceTokenService as its callers see it: the outcomes its
      three operations produce for the current user. */
  datatype TokenService = TokenService(
    graph: Result<string>,      // GetGraphTokenAsync
    azureAI: Result<string>,    // GetAzureAITokenAsync
    prewarm: Result<()>)        // EnsureTokensAcquiredAsync

  /** One token request made while pre-warming, and what it produced. */
  datatype Attempt = Attempt(scopes: seq<string>, outcome: Result<string>)

  /** What EnsureTokensAcquiredAsync did: its token requests in order, and how
      the call itself ended. */
  datatype Prewarm = Prewarm(attempts: seq<Attempt>, outcome: Result<()>)

  /** The two catch clauses around a token request: a consent-required error
      is logged as a warning and rethrown, any other error is logged as an
      error and rethrown. */
  function Rethrow(attempt: Result<string>): Result<string> {
    match attempt
    case Ok(token) => Ok(token)
    case Err(ConsentRequired(message)) => Err(ConsentRequired(message))
    case Err(fault) => Err(fault)
  }

  /** GetGraphTokenAsync: exactly the Graph scopes are requested, and the
      identity layer's answer (token, consent-required error or other error)
      reaches the caller unchanged. */
  function GetGraphToken(acquire: TokenAcquisition): (r: Result<string>)
    ensures r == acquire(GraphScopes)
  {
    Rethrow(acquire(GraphScopes))
  }

  /** GetAzureAITokenAsync: exactly the Azure AI scope is requested, and the
      identity layer's answer reaches the caller unchanged. */
  function GetAzureAIToken(acquire: TokenAcquisition): (r: Result<string>)
    ensures r == acquire(AzureAIScopes)
  {
    Rethrow(acquire(AzureAIScopes))
  }

  /** A catch (Exception) clause that only logs: whatever the guarded call
      did, execution continues normally. */
  function Swallow<T>(attempt: Result<T>): Result<()> {
    match attempt
    case Ok(_) => Ok(())
    case Err(_) => Ok(())
  }

  /** EnsureTokensAcquiredAsync: the Graph token is tried first, the Azure AI
      token second whatever became of the first, and the call never throws. */
  function EnsureTokensAcquired(acquire: TokenAcquisition): (r: Prewarm)
    ensures r.outcome == Ok(())
    ensures |r.attempts| == 2
    ensures r.attempts[0] == Attempt(GraphScopes, acquire(GraphScopes))
    ensures r.attempts[1] == Attempt(AzureAIScopes, acquire(AzureAIScopes))
  {
    var graph := GetGraphToken(acquire);
    var afterGraph := Swallow(graph);
    var azureAI := GetAzureAIToken(acquire);
    var afterAzureAI := Swallow(azureAI);
    Prewarm([Attempt(GraphScopes, graph), Attempt(AzureAIScopes, azureAI)],
            if afterGraph.Ok? then afterAzureAI else afterGraph)
  }

  /** The token service registered for IMultiResourceTokenService, seen
      through its interface. */
  function Broker(acquire: TokenAcquisition): (s: TokenService)
    ensures s.graph == acquire(GraphScopes)
    ensures s.azureAI == acquire(AzureAIScopes)
    ensures s.prewarm == Ok(())
  {
    TokenService(GetGraphToken(acquire), GetAzureAIToken(acquire), EnsureTokensAcquired(acquire).outcome)
  }
}
