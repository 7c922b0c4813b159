/** The option records the application binds from its configuration sections
    "AzureAIFoundry", "Microsoft365" and "ChatSettings", their default values,
    and the start-up validation of the Microsoft 365 section. */
module Configuration {
  import opened Wrappers
  import Text

  /** The built-in system prompt, a verbatim string literal: its line breaks
      and the indentation of its continuation lines are part of the value. */
  const DefaultSystemMessage: string :=
    "You are an compliance agent that detects policy violations in policy documents. You will be provided the relevant policy rules alongside the file contents at the end of these instructions\n"
    + "    Your job is to identify and classify issues with the file contents and produce a summary of all the violations.Use the given rules only as the definitive source of rules. For each violation add a citation to the relevant rule violation. The citation must include the name of the rule book which contains the rule that has been violated and a brief summary of why you think there is a violation. Do not include any other section (such as recommendations, or a total tally count for number of violations) that does not correspond to the sections above\n"
    + "    Instructions:\n"
    + "    - Complete task based on the provided context\n"
    + "    - Be concise and accurate\n"
    + "    - If asked about sources, reference the titles and URLs provided\n"
    + "    - If the context doesn't contain enough information, be honest about limitations"

  const DefaultCopilotRetrievalEndpoint: string := "https://graph.microsoft.com/beta/copilot/retrieval"

  /** AzureAIFoundryOptions. The last two fields are the ones the generation
      client reads; the options class itself declares ProjectEndpoint and
      ModelName instead, so their values come from wherever those members are
      supplied, not from a default here. */
  datatype AzureAIFoundryOptions = AzureAIFoundryOptions(
    ProjectEndpoint: string,
    ModelName: string,
    APIKey: string,
    SystemMessage: string,
    DeployedModelEndpoint: string,
    DeployedModelName: string)

  /** Microsoft365Options. Scopes is a string array, kept as a sequence. */
  datatype Microsoft365Options = Microsoft365Options(
    TenantId: string,
    ClientId: string,
    CopilotRetrievalEndpoint: string,
    FilterExpression: string,
    Scopes: seq<string>,
    FileContextQuery: string,
    RulesContextQuery: string)

  /** ChatSettingsOptions without its floating-point Temperature. */
  datatype ChatSettingsOptions = ChatSettingsOptions(MaxTokens: int, TopK: int)

  /** A freshly constructed AzureAIFoundryOptions; the two members the class
      does not declare keep whatever value they are given. */
  function DefaultAzureAIFoundryOptions(deployedModelEndpoint: string, deployedModelName: string): (o: AzureAIFoundryOptions)
    ensures o.ProjectEndpoint == "" && o.ModelName == "" && o.APIKey == ""
    ensures o.SystemMessage == DefaultSystemMessage && |o.SystemMessage| > 0
    ensures o.DeployedModelEndpoint == deployedModelEndpoint && o.DeployedModelName == deployedModelName
  {
    AzureAIFoundryOptions("", "", "", DefaultSystemMessage, deployedModelEndpoint, deployedModelName)
  }

  /** A freshly constructed Microsoft365Options. */
  function DefaultMicrosoft365Options(): (o: Microsoft365Options)
    ensures o.TenantId == "" && o.ClientId == ""
    ensures o.CopilotRetrievalEndpoint == "https://graph.microsoft.com/beta/copilot/retrieval"
    ensures o.FilterExpression == "" && o.Scopes == []
    ensures o.FileContextQuery == "" && o.RulesContextQuery == ""
  {
    Microsoft365Options("", "", DefaultCopilotRetrievalEndpoint, "", [], "", "")
  }

  /** A freshly constructed ChatSettingsOptions. */
  function DefaultChatSettingsOptions(): (o: ChatSettingsOptions)
    ensures o.MaxTokens == 1000 && o.TopK == 5
  {
    ChatSettingsOptions(1000, 5)
  }

  /** The errors data-annotation validation reports for one string property
      carrying [Required] and [MinLength(1)]. The framework tests [Required]
      first (which for a string rejects null, empty and white-space-only
      values) and stops at its failure; only then does it test the other
      attributes. */
  function PropertyErrors(requiredMessage: string, minLengthMessage: string, value: string): (errors: seq<string>)
    ensures errors == [] <==> !Text.IsNullOrWhiteSpace(Some(value))
    ensures errors != [] ==> errors == [requiredMessage]
  {
    if Text.IsNullOrWhiteSpace(Some(value)) then [requiredMessage]
    else if |value| < 1 then [minLengthMessage]
    else []
  }

  /** The validation run at start-up (ValidateDataAnnotations with
      ValidateOnStart): the errors of each annotated property, in declaration
      order. */
  function ValidationErrors(o: Microsoft365Options): (errors: seq<string>)
  {
    PropertyErrors("FileContextQuery is required and cannot be empty", "FileContextQuery cannot be empty", o.FileContextQuery)
      + PropertyErrors("RulesContextQuery is required and cannot be empty", "RulesContextQuery cannot be empty", o.RulesContextQuery)
  }

  predicate IsValid(o: Microsoft365Options) {
    ValidationErrors(o) == []
  }

  /** The options pass validation exactly when both queries hold a character
      that is not white space; each failing query contributes its own
      message. */
  lemma ValidationCharacterization(o: Microsoft365Options)
    ensures IsValid(o) <==>
      (exists i :: 0 <= i < |o.FileContextQuery| && !Text.IsWhiteSpace(o.FileContextQuery[i]))
      && (exists j :: 0 <= j < |o.RulesContextQuery| && !Text.IsWhiteSpace(o.RulesContextQuery[j]))
    ensures o.FileContextQuery == "" ==> "FileContextQuery is required and cannot be empty" in ValidationErrors(o)
    ensures o.RulesContextQuery == "" ==> "RulesContextQuery is required and cannot be empty" in ValidationErrors(o)
    ensures |ValidationErrors(o)| <= 2
  {
    var f := PropertyErrors("FileContextQuery is required and cannot be empty", "FileContextQuery cannot be empty", o.FileContextQuery);
    var r := PropertyErrors("RulesContextQuery is required and cannot be empty", "RulesContextQuery cannot be empty", o.RulesContextQuery);
    assert ValidationErrors(o) == f + r;
    assert ValidationErrors(o) == [] <==> f == [] && r == [];
    if o.RulesContextQuery == "" {
      assert ValidationErrors(o)[|f|] == r[0];
    }
  }

  /** The defaults cannot start the application: both queries must come from
      configuration. */
  lemma DefaultMicrosoft365OptionsRejected()
    ensures !IsValid(DefaultMicrosoft365Options())
    ensures ValidationErrors(DefaultMicrosoft365Options()) ==
      ["FileContextQuery is required and cannot be empty", "RulesContextQuery is required and cannot be empty"]
  {
  }
}
