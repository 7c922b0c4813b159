# Compliance audit pipeline and its credential layer, in Dafny

This project models the decision logic of an ASP.NET Core compliance-audit
web application. On request, the application does the following:

1. It searches the user's Microsoft 365 content for policy rule documents, then for the document to audit.
2. It asks a deployed Azure AI chat-completion model to list the violations it finds.
3. It shows the result and mails it to the audited document's author.

The model covers these parts of the application:

- **Orchestrator** (`ChatService`). Search order, the empty-result short cut, first-hit selection, and the mapping of exceptions to fixed apologies.
- **Generation client** (`FoundryService`).
  - Assembly of the prompt, line by line, as an imperative loop proved against a layout function.
  - Assembly of the completion request.
  - The fallbacks for a null reply and for any exception.
- **Credential broker** (`MultiResourceTokenService`). The fixed scope lists, the getters that rethrow, and best-effort pre-warming.
- **Four token credentials**:
  - the multi-resource credential, whose routing is proved equal to "some scope contains `cognitiveservices.azure.com` at some index, letters compared without case";
  - the Azure AI credential and the Graph credential, which always serve one token;
  - the delegate credential, which turns a consent error into an `UnauthorizedAccessException`.
- **Two action filters** (`AuthorizeForAzureAIScopesAttribute`, `EnsureTokensAcquiredAttribute`).
- **Controller** (`HomeController`). The ViewBag state of `Index` and of the compliance check with its mail notification, as a class whose fields those methods update.
- **Options** (`Configuration`). Their defaults and the start-up validation.

How external effects are represented:

- **External calls** are parameters of function type that answer `Ok(value)` or `Err(fault)`. These are the identity layer's token acquisition, the retrieval search, the chat-completion client and the mail service.
- **Exceptions**: `Fault` tells apart the exceptions the code catches by type or throws, plus cancellation, which every `catch (Exception)` absorbs. These are the identity challenge and consent required (caught by type), unauthorized access (thrown by the delegate credential), cancellation, and any other exception.
- **Ordering and "not called"** are stated over traces of the outbound calls a member makes.
- **Time** is whole seconds. The current instant is a parameter.
- **Case-insensitive comparison** (`StringComparison.OrdinalIgnoreCase`) is `Text.FoldUpper`, which folds ASCII letters only; a non-ASCII look-alike such as the dotless i (U+0131) does not match an ASCII letter.
- **`AppendLine`** ends each line with `"\n"`.

One module per source file; `Wrappers`, `Text`, `AzureCore`, `AspNet` and
`Models` hold the shared vocabulary.

## Model

| member | source | states |
|---|---|---|
| Text.ContainsIgnoreCaseIff | Services/MultiResourceTokenCredential.cs:29-30 | The recursive ordinal case-insensitive `Contains` holds exactly when the value matches the text, letter by letter up to case, at some index where it fits. |
| Text.StartsWithIgnoreCaseIff | Services/MultiResourceTokenCredential.cs:29-30 | A case-insensitive prefix test holds exactly when the value matches at index 0. |
| Text.Join | Filters/AuthorizeForAzureAIScopesAttribute.cs:34 | `string.Join` of no values is empty, and of one value is that value. |
| Text.FoldUpper | Services/MultiResourceTokenCredential.cs:30 | Small ASCII letters map to their capitals and nothing else changes; no character outside ASCII maps onto an ASCII one. |
| Configuration.DefaultAzureAIFoundryOptions | Models/Configuration.cs:8-17 | `ProjectEndpoint`, `ModelName` and `APIKey` default to empty. `SystemMessage` defaults to the built-in, non-empty prompt. |
| Configuration.DefaultMicrosoft365Options | Models/Configuration.cs:24-36 | Tenant, client, filter and both queries default to empty. `Scopes` defaults to the empty array. The retrieval endpoint defaults to the Graph beta copilot retrieval URL. |
| Configuration.DefaultChatSettingsOptions | Models/Configuration.cs:43-45 | `MaxTokens` defaults to 1000 and `TopK` to 5. |
| Configuration.PropertyErrors | Models/Configuration.cs:30-36 | A property passes `[Required]`/`[MinLength(1)]` exactly when it holds a non-white-space character. Otherwise the only error is the `Required` message. |
| Configuration.ValidationCharacterization | Models/Configuration.cs:30-36 | The options are valid exactly when both `FileContextQuery` and `RulesContextQuery` hold a non-white-space character. An empty query produces its own message, and there are at most two errors. |
| Configuration.DefaultMicrosoft365OptionsRejected | Models/Configuration.cs:30-36 | The defaults fail validation with both `Required` messages, file query first. |
| AzureCore.IssuedFromUnique | Services/MultiResourceTokenCredential.cs:45-53 | A credential's answer is determined by the broker's answer and the expiry it stamps. |
| MultiResourceTokenService.GetGraphToken | Services/MultiResourceTokenService.cs:19-24 | The identity layer is asked for exactly the four Graph scopes, in order. Its token, consent-required error or other error reaches the caller unchanged. |
| MultiResourceTokenService.GetAzureAIToken | Services/MultiResourceTokenService.cs:26-28 | The identity layer is asked for exactly `https://cognitiveservices.azure.com/.default`. Its answer reaches the caller unchanged. |
| MultiResourceTokenService.EnsureTokensAcquired | Services/MultiResourceTokenService.cs:78-103 | Pre-warming requests the Graph scopes first and the Azure AI scope second, whatever the first request did, and it completes normally on every combination of outcomes. |
| MultiResourceTokenService.Broker | Services/MultiResourceTokenService.cs:38-103 | The registered token service answers the Graph request, then the Azure AI request, as the identity layer does. Its pre-warming never throws. |
| MultiResourceTokenCredential.AnyScopeNamesAzureAIIff | Services/MultiResourceTokenCredential.cs:29-30 | `Any` over the scopes holds exactly when some scope contains the Azure AI host case-insensitively. |
| MultiResourceTokenCredential.RoutingRule | Services/MultiResourceTokenCredential.cs:29-30 | A request is an Azure AI request exactly when some scope matches `cognitiveservices.azure.com`, up to case, at some position. A null or empty scope array is not one. |
| MultiResourceTokenCredential.GetTokenAsync | Services/MultiResourceTokenCredential.cs:24-55 | An Azure AI request gets the broker's Azure AI answer and any other request gets its Graph answer. The token text is passed through, the expiry is now + 55 minutes, and an error is rethrown unchanged. |
| MultiResourceTokenCredential.GetToken | Services/MultiResourceTokenCredential.cs:19-22 | The synchronous entry point returns or throws exactly what `GetTokenAsync` does. |
| MultiResourceTokenCredential.AzureAIScopesRouteToAzureAI | Services/MultiResourceTokenService.cs:26-28 | A request for the broker's Azure AI scope routes to the Azure AI token. |
| MultiResourceTokenCredential.GraphScopesRouteToGraph | Services/MultiResourceTokenService.cs:19-24 | A request for the broker's Graph scopes routes to the Graph token. |
| MultiResourceTokenCredential.RoutingIgnoresCase | Services/MultiResourceTokenCredential.cs:29-30 | Two scope lists whose scopes agree letter by letter up to case route the same way. |
| MultiResourceTokenCredential.NoLetterVMeansNoAzureAIHost | Services/MultiResourceTokenCredential.cs:29-30 | A scope without the letter v in either case never routes to Azure AI. |
| AzureAITokenCredential.GetTokenAsync | Services/AzureAITokenCredential.cs:28-49 | Whatever scopes are requested, the broker's Azure AI answer is served. The token text is passed through, the expiry is now + 55 minutes, and an error is rethrown. |
| AzureAITokenCredential.GetToken | Services/AzureAITokenCredential.cs:23-26 | The synchronous entry point returns or throws exactly what `GetTokenAsync` does. |
| AzureAITokenCredential.AgreesWithMultiResourceOnAzureAIRequests | Services/AzureAITokenCredential.cs:35-41 | On every request the multi-resource credential routes to Azure AI, both credentials give the same answer. |
| GraphTokenCredential.GetTokenAsync | Services/GraphTokenCredential.cs:24-42 | Whatever scopes are requested, the broker's Graph answer is served. The token text is passed through, the expiry is now + 55 minutes, and an error is rethrown. |
| GraphTokenCredential.GetToken | Services/GraphTokenCredential.cs:19-22 | The synchronous entry point returns or throws exactly what `GetTokenAsync` does. |
| GraphTokenCredential.AgreesWithMultiResourceOnGraphRequests | Services/GraphTokenCredential.cs:29-34 | On every request the multi-resource credential routes to Graph, both credentials give the same answer. |
| DelegateTokenCredential.GetTokenAsync | Extensions/DelegateTokenCredential.cs:23-49 | The identity layer is asked for the constructor's scopes, and the request context plays no part. A token expires now + 1 hour. Consent required becomes `UnauthorizedAccess("Additional consent required for Azure AI services access")`, every other error is rethrown unchanged, and no consent error escapes. |
| DelegateTokenCredential.GetToken | Extensions/DelegateTokenCredential.cs:18-21 | The synchronous entry point returns or throws exactly what `GetTokenAsync` does. |
| FoundryService.BuildUserMessage | Services/FoundryService.cs:81-100 | The string built by appending lines in a loop over the rules equals the layout `UserMessage`: the header, then each rule's block in order, then the file section. |
| FoundryService.RulesSectionAppend | Services/FoundryService.cs:87-93 | The rule section of two concatenated rule lists is the concatenation of their sections. |
| FoundryService.UserMessageLayout | Services/FoundryService.cs:84-98 | Rule i's block sits between the blocks of the rules before it and those after it, inside header and file section. A block is the "Source: {Title} ({Source})" line, then the "Rules to enforce: {Content}" line, then an empty line only when the Url is non-empty. |
| FoundryService.UserMessageFrame | Services/FoundryService.cs:84-98 | The message starts with "Rules: " and an empty line, and ends with "File contents: ", an empty line and the file's content. Only the file's Content is used. |
| FoundryService.BuildSystemMessage | Services/FoundryService.cs:75-79 | The system message is exactly the configured `SystemMessage`. |
| FoundryService.CompletionRequest | Services/FoundryService.cs:47-60 | The request holds the configured system message, then the user message. The model is the configured deployed model name and the token limit is the configured `MaxTokens`. |
| FoundryService.GenerateResponse | Services/FoundryService.cs:40-73 | A reply with content is returned as it is. A null content gives the "couldn't generate" apology. Any exception gives the "error occurred" apology, so the call never throws. |
| FoundryService.CancellationDegrades | Services/FoundryService.cs:68-72 | A cancelled model call yields the error apology like any other exception. |
| ChatService.ProcessChat | Services/ChatService.cs:27-91 | The calls are: the rules search (rules query, shared filter), then the file search (file query, same filter), then, only on a non-empty file search, generation on the first hit. An empty search gives the "could not find" apology without author. Success passes the generated text and the first hit's author through. An identity challenge is rethrown and any other exception gives the "encountered an error" apology without author. Every response is stamped now. |
| ChatService.WithFoundryService | Services/ChatService.cs:63-75 | With the registered generation client, which never throws, a non-empty search always yields the generated text and the first hit's author. |
| EnsureTokensAcquiredAttribute.OnActionExecution | Filters/EnsureTokensAcquiredAttribute.cs:11-36 | The next stage runs exactly once and last. Pre-warming runs exactly when the user is authenticated and both services resolve. The filter takes no other step: at most one pre-warm and no token request of its own. The context's Result is never set. |
| EnsureTokensAcquiredAttribute.PrewarmFailureDoesNotBlock | Filters/EnsureTokensAcquiredAttribute.cs:21-31 | A pre-warm that throws leads to the same run as one that succeeds. |
| AuthorizeForAzureAIScopesAttribute.ScopesAreTheAzureAIScopes | Filters/AuthorizeForAzureAIScopesAttribute.cs:11 | The filter's only scope is `https://cognitiveservices.azure.com/.default`, which is also its space-joined form. |
| AuthorizeForAzureAIScopesAttribute.OnActionExecution | Filters/AuthorizeForAzureAIScopesAttribute.cs:13-50 | Unauthenticated, or no token service: no token request, next runs, Result untouched. Token obtained: next runs, Result untouched. Consent required: Result is a Challenge for "OpenIdConnect" whose "scopes" item is the joined scope list, and next does not run. Any other error: Result is Unauthorized and next does not run. |
| HomeController.HomeController.Index | Controllers/HomeController.cs:34-54 | Not signed in, or no identity: `UserName` null, `RequiresAuthentication` true. Signed in: `UserName` is the identity's name, `RequiresAuthentication` false, `RequiresConsent` false, `ReadyForCompliance` true. No other entry changes. |
| HomeController.HomeController.ProcessComplianceCheck | Controllers/HomeController.cs:71-136 | An identity challenge is rethrown with nothing set or sent. Any other orchestrator exception sets the fixed `Error`, `UserName` and `ReadyForCompliance` and sends nothing. A response sets `ComplianceResult`, `FileAuthor`, `Timestamp`, `UserName` and `ReadyForCompliance`, which mailing never changes. With no author, no mail is sent and there is a fixed `EmailError`. Otherwise one mail goes to the author, with the response as body and tag "compliance-check": success sets `EmailSent`/`EmailMessage`, failure sets `EmailSent` false and `EmailError` to its message, and an exception sets the fixed `EmailError`. |

## Notes on the source

- **Cancellation**: the code does not surface it.
  - The generation client catches every exception, `OperationCanceledException` included, and returns its apology text. The orchestrator does the same with its own apology.
  - A cancelled request therefore produces an apology response rather than a failure. The model follows the code.
- **Model options**: the generation client reads `DeployedModelEndpoint` and `DeployedModelName` (Services/FoundryService.cs:30, 57), but `AzureAIFoundryOptions` declares `ProjectEndpoint` and `ModelName` (Models/Configuration.cs:8-9).
  - The model gives the options record all four fields and leaves the mismatch as it is: the default constructor takes the two undeclared values as parameters.
- **Validation**: `[MinLength(1)]` on the two queries never reports its message. `[Required]` already rejects empty and white-space-only strings, and a failing `[Required]` stops the validation of that property, so its other attributes are not tested.
- **Filter scope lists**: `AuthorizeForAzureAIScopesAttribute` requests its own copy of the Azure AI scope list, and `ScopesAreTheAzureAIScopes` shows it equals the broker's.

## Left out

- Program.cs is not part of this model: dependency registration, middleware and configuration loading are framework set-up.
- The real external calls are parameters of the model, and their implementations are not part of this model. These are `ITokenAcquisition`, `ChatCompletionsClient.CompleteAsync`, `IRetrievalService.SearchAsync` and `IMailService.SendMailAsync`.
- The clock is a parameter. `DateTime.UtcNow` readings at different points of one call are taken to be the same instant.
- Async execution, `CancellationToken` passing and the sync-over-async `GetAwaiter().GetResult()` are not modelled: each call is one step that returns or throws.
- Logging is left out: it has no effect on results.
- `Temperature` (a float) is left out of `ChatSettingsOptions` and of the completion request.
- Several parts of the controller are left out: the `RunComplianceCheck` action and the `[Authorize]`/`[AuthorizeForScopes]` pipeline around it, the `Error` action, and view rendering. The `ChatRequest` argument is also left out, because the orchestrator never reads it.
- `ChallengeResult` is reduced to its scheme and its "scopes" item.
- Null elements inside a scope array, a null search result list, and null elements anywhere in a search result are not modelled: strings and lists are non-null values. In the source a null rule document would throw inside the generation client and yield its error apology, which would then be mailed to the author.
- Text.FoldUpper: every non-ASCII character maps to itself. Ordinal casing also pairs non-ASCII letters with each other (for example U+00E9 with U+00C9); that is not modelled. No non-ASCII character folds onto an ASCII one, U+0131 and U+017F included, so a test against the ASCII host name is unaffected.
- Line endings: `NewLine` is fixed to `"\n"` as a modelling assumption, since the host's line terminator is not fixed by the application; on Windows `AppendLine` would use `"\r\n"`.
- The options records' section-name constants and the binding from configuration files are left out.
