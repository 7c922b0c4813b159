/** The compliance orchestrator: searches the rule documents, then the
    documents to audit, audits the first hit only, and answers with a
    ChatResponse whatever fails, except for an identity challenge, which it
    lets through to its caller. */
module ChatService {
  import opened Wrappers
  import opened Models
  import Configuration
  import FoundryService

  const NoDocumentMessage: string := "I apologize, I could not find any relevant policy documents to audit."
  const ErrorMessage: string := "I apologize, but I encountered an error while processing your request. Please try again."

  /** IRetrievalService.SearchAsync(query, filter): the ranked hits, or the
      exception the search raised. */
  type RetrievalService = (string, string) -> Result<seq<RetrievedContent>>

  /** IFoundryService.GenerateResponseAsync(rules, file): the generated text,
      or the exception the call raised. */
  type GenerationService = (seq<RetrievedContent>, RetrievedContent) -> Result<string>

  /** An outbound call the orchestrator makes. */
  datatype Call = Search(query: string, filter: string) | Generate(rules: seq<RetrievedContent>, file: RetrievedContent)

  /** One run of ProcessChatAsync: the calls it made, in order, and its
      outcome (a response, or the exception it let escape). */
  datatype ChatRun = ChatRun(calls: seq<Call>, result: Result<ChatResponse>)

  /** The orchestrator's catch clauses: an identity challenge is rethrown, any
      other exception becomes the fixed apology, without author. */
  function Catch(calls: seq<Call>, fault: Fault, now: int): ChatRun {
    match fault
    case ChallengeUser => ChatRun(calls, Err(fault))
    case _ => ChatRun(calls, Ok(ChatResponse(ErrorMessage, None, now)))
  }

  /** How a run ends once a stage has thrown `fault`. */
  ghost predicate HandledAs(result: Result<ChatResponse>, fault: Fault, now: int) {
    if fault == ChallengeUser then result == Err(ChallengeUser)
    else result == Ok(ChatResponse(ErrorMessage, None, now))
  }

  /** ProcessChatAsync. */
  function ProcessChat(options: Configuration.Microsoft365Options, retrieval: RetrievalService,
                       foundry: GenerationService, now: int): (r: ChatRun)
    // the rules search comes first, then the file search, both with the shared filter
    ensures var rules := retrieval(options.RulesContextQuery, options.FilterExpression);
            var files := retrieval(options.FileContextQuery, options.FilterExpression);
      && 1 <= |r.calls| <= 3
      && r.calls[0] == Search(options.RulesContextQuery, options.FilterExpression)
      && (|r.calls| >= 2 <==> rules.Ok?)
      && (|r.calls| >= 2 ==> r.calls[1] == Search(options.FileContextQuery, options.FilterExpression))
      // generation runs only on a non-empty file search, and only on its first hit
      && (|r.calls| == 3 <==> rules.Ok? && files.Ok? && files.value != [])
      && (|r.calls| == 3 ==> r.calls[2] == Generate(rules.value, files.value[0]))
    // the outcome of each path
    ensures var rules := retrieval(options.RulesContextQuery, options.FilterExpression);
            var files := retrieval(options.FileContextQuery, options.FilterExpression);
      && (rules.Err? ==> HandledAs(r.result, rules.fault, now))
      && (rules.Ok? && files.Err? ==> HandledAs(r.result, files.fault, now))
      && (rules.Ok? && files.Ok? && files.value == [] ==>
            r.result == Ok(ChatResponse(NoDocumentMessage, None, now)))
      && (rules.Ok? && files.Ok? && files.value != [] ==>
            var generated := foundry(rules.value, files.value[0]);
            && (generated.Ok? ==> r.result == Ok(ChatResponse(generated.value, files.value[0].FileAuthor, now)))
            && (generated.Err? ==> HandledAs(r.result, generated.fault, now)))
    // only an identity challenge escapes, and every response carries a timestamp
    ensures r.result.Err? ==> r.result.fault == ChallengeUser
    ensures r.result.Ok? ==> r.result.value.Timestamp == now
  {
    var rulesFilter := options.FilterExpression;
    var fileContentFilter := options.FilterExpression;
    var rulesQuery := options.RulesContextQuery;
    var calls := [Search(rulesQuery, rulesFilter)];
    match retrieval(rulesQuery, rulesFilter)
    case Err(fault) => Catch(calls, fault, now)
    case Ok(retrievedRulesContext) =>
      var filesContentQuery := options.FileContextQuery;
      var calls := calls + [Search(filesContentQuery, fileContentFilter)];
      match retrieval(filesContentQuery, fileContentFilter)
      case Err(fault) => Catch(calls, fault, now)
      case Ok(retrievedFilesContext) =>
        if retrievedFilesContext == [] then
          ChatRun(calls, Ok(ChatResponse(NoDocumentMessage, None, now)))
        else
          var fileContentToAudit := retrievedFilesContext[0];
          var fileAuthor := fileContentToAudit.FileAuthor;
          var calls := calls + [Generate(retrievedRulesContext, fileContentToAudit)];
          match foundry(retrievedRulesContext, fileContentToAudit)
          case Err(fault) => Catch(calls, fault, now)
          case Ok(response) => ChatRun(calls, Ok(ChatResponse(response, fileAuthor, now)))
  }

  /** With the generation client the application registers, which never
      throws, a non-empty file search always produces the generated text and
      the first hit's author. */
  lemma WithFoundryService(options: Configuration.Microsoft365Options, retrieval: RetrievalService,
                           foundryOptions: Configuration.AzureAIFoundryOptions,
                           chatSettings: Configuration.ChatSettingsOptions,
                           client: FoundryService.ChatCompletionsClient, now: int)
    requires retrieval(options.RulesContextQuery, options.FilterExpression).Ok?
    requires retrieval(options.FileContextQuery, options.FilterExpression).Ok?
    requires retrieval(options.FileContextQuery, options.FilterExpression).value != []
    ensures var rules := retrieval(options.RulesContextQuery, options.FilterExpression).value;
            var file := retrieval(options.FileContextQuery, options.FilterExpression).value[0];
            var foundry := (rs, f) => Ok(FoundryService.GenerateResponse(foundryOptions, chatSettings, client, rs, f));
      ProcessChat(options, retrieval, foundry, now).result
        == Ok(ChatResponse(FoundryService.GenerateResponse(foundryOptions, chatSettings, client, rules, file),
                           file.FileAuthor, now))
  {
  }
}
