/** The controller behind the compliance page: the sign-in state shown by
    Index, and the compliance check that runs the orchestrator and mails the
    result to the audited document's author. */
module HomeController {
  import opened Wrappers
  import opened Models
  import opened AspNet
  import Text

  const NotificationTag: string := "compliance-check"
  const NoAuthorError: string := "No file author found - unable to send email notification"
  const MailExceptionError: string := "An unexpected error occurred while sending email notification"
  const CheckError: string := "An error occurred while processing the compliance check. Please try again."

  /** One call of IMailService.SendMailAsync. */
  datatype MailRequest = MailRequest(recipient: string, body: string, tag: string)

  /** IMailService.SendMailAsync: the service's report, or the exception it
      raised. */
  type MailService = MailRequest -> Result<MailResult>

  /** HomeController with the ViewBag entries the core sets; None stands for
      an entry that is unset or null. */
  class HomeController {
    var UserName: Option<string>
    var RequiresAuthentication: Option<bool>
    var RequiresConsent: Option<bool>
    var ReadyForCompliance: Option<bool>
    var ComplianceResult: Option<string>
    var FileAuthor: Option<string>
    var Timestamp: Option<int>
    var EmailSent: Option<bool>
    var EmailMessage: Option<string>
    var EmailError: Option<string>
    var Error: Option<string>

    /** A controller for a new request: an empty ViewBag. */
    constructor ()
      ensures UserName == None && RequiresAuthentication == None && RequiresConsent == None
      ensures ReadyForCompliance == None && ComplianceResult == None && FileAuthor == None
      ensures Timestamp == None && EmailSent == None && EmailMessage == None
      ensures EmailError == None && Error == None
    {
      UserName, RequiresAuthentication, RequiresConsent, ReadyForCompliance := None, None, None, None;
      ComplianceResult, FileAuthor, Timestamp := None, None, None;
      EmailSent, EmailMessage, EmailError, Error := None, None, None, None;
    }

    /** Index: a visitor who is not signed in (or has no identity) sees the
      sign-in interface; a signed-in user is ready for the compliance check.
      Returns the name of the rendered view. */
    method Index(user: Option<ClaimsPrincipal>) returns (view: string)
      modifies this
      ensures view == "Index"
      ensures !IsAuthenticated(user) ==>
        && UserName == None && RequiresAuthentication == Some(true)
        && RequiresConsent == old(RequiresConsent) && ReadyForCompliance == old(ReadyForCompliance)
      ensures IsAuthenticated(user) ==>
        && UserName == AspNet.UserName(user) && RequiresAuthentication == Some(false)
        && RequiresConsent == Some(false) && ReadyForCompliance == Some(true)
      ensures ComplianceResult == old(ComplianceResult) && FileAuthor == old(FileAuthor)
      ensures Timestamp == old(Timestamp) && EmailSent == old(EmailSent) && EmailMessage == old(EmailMessage)
      ensures EmailError == old(EmailError) && Error == old(Error)
    {
      if !IsAuthenticated(user) {
        UserName := None;
        RequiresAuthentication := Some(true);
        view := "Index";
        return;
      }
      UserName := AspNet.UserName(user);
      RequiresAuthentication := Some(false);
      RequiresConsent := Some(false);
      ReadyForCompliance := Some(true);
      view := "Index";
    }

    /** ProcessComplianceCheck. `chat` is what IChatService.ProcessChatAsync
      returned or threw. Returns the rendered view's name or the exception
      that escapes, and the mail requests sent. */
    method ProcessComplianceCheck(user: Option<ClaimsPrincipal>, chat: Result<ChatResponse>, mail: MailService)
      returns (outcome: Result<string>, sent: seq<MailRequest>)
      modifies this
      // an identity challenge is rethrown, before anything is set or sent
      ensures chat == Err(ChallengeUser) ==>
        && outcome == Err(ChallengeUser) && sent == []
        && UserName == old(UserName) && ReadyForCompliance == old(ReadyForCompliance)
        && ComplianceResult == old(ComplianceResult) && EmailSent == old(EmailSent)
        && EmailMessage == old(EmailMessage) && EmailError == old(EmailError) && Error == old(Error)
      // any other exception of the orchestrator: the fixed error, nothing sent
      ensures chat.Err? && chat.fault != ChallengeUser ==>
        && outcome == Ok("Index") && sent == []
        && Error == Some(CheckError) && UserName == AspNet.UserName(user) && ReadyForCompliance == Some(true)
        && ComplianceResult == old(ComplianceResult) && EmailSent == old(EmailSent)
        && EmailMessage == old(EmailMessage) && EmailError == old(EmailError)
      // a response: its fields are shown whatever becomes of the notification
      ensures chat.Ok? ==>
        && outcome == Ok("Index") && Error == old(Error)
        && ComplianceResult == Some(chat.value.LlmResponse) && FileAuthor == chat.value.FileAuthor
        && Timestamp == Some(chat.value.Timestamp)
        && UserName == AspNet.UserName(user) && ReadyForCompliance == Some(true)
      // no author: no mail
      ensures chat.Ok? && Text.IsNullOrEmpty(chat.value.FileAuthor) ==>
        && sent == [] && EmailSent == Some(false) && EmailError == Some(NoAuthorError)
        && EmailMessage == old(EmailMessage)
      // an author: one mail to the author, with the generated text as body
      ensures chat.Ok? && !Text.IsNullOrEmpty(chat.value.FileAuthor) ==>
        var request := MailRequest(chat.value.FileAuthor.value, chat.value.LlmResponse, NotificationTag);
        && sent == [request]
        && (mail(request).Ok? && mail(request).value.Success ==>
              EmailSent == Some(true) && EmailMessage == Some(mail(request).value.Message) && EmailError == old(EmailError))
        && (mail(request).Ok? && !mail(request).value.Success ==>
              EmailSent == Some(false) && EmailError == Some(mail(request).value.Message) && EmailMessage == old(EmailMessage))
        && (mail(request).Err? ==>
              EmailSent == Some(false) && EmailError == Some(MailExceptionError) && EmailMessage == old(EmailMessage))
      ensures RequiresAuthentication == old(RequiresAuthentication) && RequiresConsent == old(RequiresConsent)
      ensures !chat.Ok? ==> FileAuthor == old(FileAuthor) && Timestamp == old(Timestamp)
    {
      sent := [];
      match chat {
        case Err(ChallengeUser) =>
          outcome := Err(ChallengeUser);
          return;
        case Err(_) =>
          Error := Some(CheckError);
          UserName := AspNet.UserName(user);
          ReadyForCompliance := Some(true);
          outcome := Ok("Index");
          return;
        case Ok(response) =>
          ComplianceResult := Some(response.LlmResponse);
          FileAuthor := response.FileAuthor;
          Timestamp := Some(response.Timestamp);
          UserName := AspNet.UserName(user);
          ReadyForCompliance := Some(true);

          if !Text.IsNullOrEmpty(response.FileAuthor) {
            var request := MailRequest(response.FileAuthor.value, response.LlmResponse, NotificationTag);
            sent := sent + [request];
            match mail(request) {
              case Ok(emailResult) =>
                if emailResult.Success {
                  EmailSent := Some(true);
                  EmailMessage := Some(emailResult.Message);
                } else {
                  EmailSent := Some(false);
                  EmailError := Some(emailResult.Message);
                }
              case Err(_) =>
                EmailSent := Some(false);
                EmailError := Some(MailExceptionError);
            }
          } else {
            EmailSent := Some(false);
            EmailError := Some(NoAuthorError);
          }
          outcome := Ok("Index");
      }
    }
  }
}
