/** Values shared by every module: optional values, the exceptions the core
    raises or catches, and the outcome of a call that may throw. */
module Wrappers {

  /** A reference that may be null. */
  datatype Option<+T> = None | Some(value: T)

  /** The exceptions the core catches by type or throws, plus cancellation,
      which every catch (Exception) clause absorbs.
      - ChallengeUser: MicrosoftIdentityWebChallengeUserException, the identity
        layer's request to challenge the user again;
      - ConsentRequired: MsalUiRequiredException, the identity needs an extra
        interactive consent step;
      - UnauthorizedAccess: UnauthorizedAccessException with its message;
      - Canceled: OperationCanceledException, raised when the request's
        cancellation token fires;
      - Other: any other exception, with its message. */
  datatype Fault =
    | ChallengeUser
    | ConsentRequired(message: string)
    | UnauthorizedAccess(message: string)
    | Canceled
    | Other(message: string)

  /** The outcome of a call that may throw: a value, or the exception raised. */
  datatype Result<+T> = Ok(value: T) | Err(fault: Fault)
}
