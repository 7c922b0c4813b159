/** The generation client: assembles the chat-completion request from the
    configured system prompt, the rule documents and the document under
    audit, and turns every failure of the model call into a fixed apology. */
module FoundryService {
  import opened Wrappers
  import opened Models
  import Text
  import Configuration

  const NoResponseMessage: string := "I apologize, but I couldn't generate a response at this time."
  const ErrorMessage: string := "I apologize, but an error occurred while processing your request."

  /** The two kinds of chat message the request carries. */
  datatype ChatRequestMessage = ChatRequestSystemMessage(content: string) | ChatRequestUserMessage(content: string)

  /** ChatCompletionsOptions without its floating-point Temperature. */
  datatype ChatCompletionsOptions = ChatCompletionsOptions(Messages: seq<ChatRequestMessage>, Model: string, MaxTokens: int)

  /** ChatCompletionsClient.CompleteAsync as the core sees it: the reply's
      content (None when the response value or its content is null), or the
      exception the call raised, cancellation included. */
  type ChatCompletionsClient = ChatCompletionsOptions -> Result<Option<string>>

  /** StringBuilder.AppendLine(line). */
  function Line(line: string): string {
    line + Text.NewLine
  }

  /** The head of the user message: "Rules: " and an empty line. */
  const RulesHeader: string := Line("Rules: ") + Line("")

  /** The lines one rule document contributes: its source attribution, its
      content, and an empty line only when it has a non-empty Url. */
  function RuleBlock(item: RetrievedContent): string {
    Line("Source: " + item.Title + " (" + item.Source + ")")
      + Line("Rules to enforce: " + item.Content)
      + (if !Text.IsNullOrEmpty(item.Url) then Line("") else "")
  }

  /** The blocks of the rule documents, in list order. */
  function RulesSection(rules: seq<RetrievedContent>): string {
    if rules == [] then ""
    else RulesSection(rules[..|rules| - 1]) + RuleBlock(rules[|rules| - 1])
  }

  /** The tail of the user message: "File contents: ", an empty line, and the
      audited document's content. */
  function FileSection(content: string): string {
    Line("File contents: ") + Line("") + Line(content)
  }

  /** The user message BuildUserMessage produces. */
  function UserMessage(rules: seq<RetrievedContent>, file: RetrievedContent): string {
    RulesHeader + RulesSection(rules) + FileSection(file.Content)
  }

  /** BuildUserMessage: appends, line by line, the header, each rule
      document's block and the file section. */
  method BuildUserMessage(rules: seq<RetrievedContent>, file: RetrievedContent) returns (message: string)
    ensures message == UserMessage(rules, file)
  {
    var builder := "";
    builder := builder + Line("Rules: ");
    builder := builder + Line("");
    var i := 0;
    while i < |rules|
      invariant 0 <= i <= |rules|
      invariant builder == RulesHeader + RulesSection(rules[..i])
    {
      builder := AppendRule(builder, rules[i]);
      RulesSectionStep(rules, i);
      Regroup(RulesHeader, RulesSection(rules[..i]), RuleBlock(rules[i]));
      i := i + 1;
    }
    assert rules[..i] == rules;
    builder := AppendFile(builder, file);
    message := builder;
  }

  /** The loop body of BuildUserMessage: the lines of one rule document. */
  method AppendRule(builder: string, item: RetrievedContent) returns (b: string)
    ensures b == builder + RuleBlock(item)
  {
    b := builder + Line("Source: " + item.Title + " (" + item.Source + ")");
    b := b + Line("Rules to enforce: " + item.Content);
    if !Text.IsNullOrEmpty(item.Url) {
      b := b + Line("");
    }
  }

  /** The tail of BuildUserMessage: the lines of the audited document. */
  method AppendFile(builder: string, file: RetrievedContent) returns (b: string)
    ensures b == builder + FileSection(file.Content)
  {
    b := builder + Line("File contents: ");
    b := b + Line("");
    b := b + Line(file.Content);
  }

  /** Appending to a built prefix regroups. */
  lemma Regroup(a: string, b: string, c: string)
    ensures (a + b) + c == a + (b + c)
  {
  }

  /** One more rule document adds its block to the rule section. */
  lemma RulesSectionStep(rules: seq<RetrievedContent>, i: int)
    requires 0 <= i < |rules|
    ensures RulesSection(rules[..i + 1]) == RulesSection(rules[..i]) + RuleBlock(rules[i])
  {
    assert rules[..i + 1][..i] == rules[..i];
  }

  /** The rule section of a concatenation of rule lists is the concatenation
      of their sections. */
  lemma {:induction false} RulesSectionAppend(a: seq<RetrievedContent>, b: seq<RetrievedContent>)
    ensures RulesSection(a + b) == RulesSection(a) + RulesSection(b)
    decreases |b|
  {
    if b == [] {
      assert a + b == a;
    } else {
      var last := b[|b| - 1];
      var init := b[..|b| - 1];
      assert (a + b)[..|a + b| - 1] == a + init;
      assert (a + b)[|a + b| - 1] == last;
      RulesSectionAppend(a, init);
      Regroup(RulesSection(a), RulesSection(init), RuleBlock(last));
    }
  }

  /** The layout of the user message: it opens with "Rules: " and an empty
      line, then holds the block of every rule document in list order (the
      block of rule i sits between those of the rules before and after it),
      and ends with "File contents: ", an empty line and the file's content. */
  lemma UserMessageLayout(rules: seq<RetrievedContent>, file: RetrievedContent, i: int)
    requires 0 <= i < |rules|
    ensures UserMessage(rules, file) ==
      RulesHeader + RulesSection(rules[..i]) + RuleBlock(rules[i]) + RulesSection(rules[i + 1..]) + FileSection(file.Content)
  {
    assert rules == rules[..i] + [rules[i]] + rules[i + 1..];
    RulesSectionAppend(rules[..i] + [rules[i]], rules[i + 1..]);
    RulesSectionAppend(rules[..i], [rules[i]]);
    assert RulesSection([rules[i]]) == RuleBlock(rules[i]) by {
      assert [rules[i]][..0] == [];
    }
    var before, block, after := RulesSection(rules[..i]), RuleBlock(rules[i]), RulesSection(rules[i + 1..]);
    Regroup(RulesHeader, before, block);
    Regroup(RulesHeader, before + block, after);
  }

  /** The message starts with the header and ends with the file section, and
      of the audited document only its Content is used. */
  lemma UserMessageFrame(rules: seq<RetrievedContent>, file: RetrievedContent, other: RetrievedContent)
    requires other.Content == file.Content
    ensures |UserMessage(rules, file)| >= |RulesHeader| + |FileSection(file.Content)|
    ensures UserMessage(rules, file)[..|RulesHeader|] == "Rules: \n\n"
    ensures UserMessage(rules, file)[|UserMessage(rules, file)| - |FileSection(file.Content)|..]
            == "File contents: \n\n" + file.Content + "\n"
    ensures UserMessage(rules, other) == UserMessage(rules, file)
  {
    var m := UserMessage(rules, file);
    assert m == RulesHeader + (RulesSection(rules) + FileSection(file.Content));
    assert m == (RulesHeader + RulesSection(rules)) + FileSection(file.Content);
  }

  /** BuildSystemMessage: the configured system message, unaltered. */
  function BuildSystemMessage(foundryOptions: Configuration.AzureAIFoundryOptions): (r: string)
    ensures r == foundryOptions.SystemMessage
  {
    foundryOptions.SystemMessage
  }

  /** The request GenerateResponseAsync sends: the configured system message,
      then the user message; the model name and token limit as configured. */
  function CompletionRequest(foundryOptions: Configuration.AzureAIFoundryOptions,
                             chatSettings: Configuration.ChatSettingsOptions,
                             rules: seq<RetrievedContent>, file: RetrievedContent): (o: ChatCompletionsOptions)
    ensures o.Messages == [ChatRequestSystemMessage(foundryOptions.SystemMessage), ChatRequestUserMessage(UserMessage(rules, file))]
    ensures o.Model == foundryOptions.DeployedModelName
    ensures o.MaxTokens == chatSettings.MaxTokens
  {
    ChatCompletionsOptions([ChatRequestSystemMessage(BuildSystemMessage(foundryOptions)),
                            ChatRequestUserMessage(UserMessage(rules, file))],
                           foundryOptions.DeployedModelName, chatSettings.MaxTokens)
  }

  /** GenerateResponseAsync: the model's reply when it has content, a fixed
      apology when the content is null, and another fixed apology when the
      call throws for any reason, cancellation included. It never throws. */
  function GenerateResponse(foundryOptions: Configuration.AzureAIFoundryOptions,
                            chatSettings: Configuration.ChatSettingsOptions,
                            client: ChatCompletionsClient,
                            rules: seq<RetrievedContent>, file: RetrievedContent): (r: string)
    ensures var reply := client(CompletionRequest(foundryOptions, chatSettings, rules, file));
      && (reply.Ok? && reply.value.Some? ==> r == reply.value.value)
      && (reply.Ok? && reply.value.None? ==> r == NoResponseMessage)
      && (reply.Err? ==> r == ErrorMessage)
  {
    var requestOptions := CompletionRequest(foundryOptions, chatSettings, rules, file);
    match client(requestOptions)
    case Ok(assistantResponse) =>
      (match assistantResponse
       case Some(content) => content
       case None => NoResponseMessage)
    case Err(_) => ErrorMessage
  }

  /** A cancelled model call degrades to the error apology like any other
      failure. */
  lemma CancellationDegrades(foundryOptions: Configuration.AzureAIFoundryOptions,
                             chatSettings: Configuration.ChatSettingsOptions,
                             client: ChatCompletionsClient,
                             rules: seq<RetrievedContent>, file: RetrievedContent)
    requires client(CompletionRequest(foundryOptions, chatSettings, rules, file)) == Err(Canceled)
    ensures GenerateResponse(foundryOptions, chatSettings, client, rules, file) == ErrorMessage
  {
  }
}
