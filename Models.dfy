/** The records the pipeline passes between its stages. Their C# declarations
    are not part of this model; the fields are those the core reads and
    writes. A null Title, Source or Content interpolates as the empty string,
    so those are plain strings here; Url and FileAuthor are tested for null and
    stay optional. */
module Models {
  import opened Wrappers

  /** One search hit of the retrieval service. */
  datatype RetrievedContent = RetrievedContent(
    Title: string,
    Source: string,
    Content: string,
    Url: Option<string>,
    FileAuthor: Option<string>)

  /** The orchestrator's answer; Timestamp is an instant in seconds. */
  datatype ChatResponse = ChatResponse(
    LlmResponse: string,
    FileAuthor: Option<string>,
    Timestamp: int)

  /** What the mail service reports for one send attempt. */
  datatype MailResult = MailResult(Success: bool, Message: string)
}
