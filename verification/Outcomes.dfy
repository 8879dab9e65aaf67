/** Result values shared by every layer of the model. */
module Outcomes {

  datatype Option<+T> = None | Some(value: T)

  datatype Result<+T, +E> = Ok(value: T) | Err(error: E)

  /** The error codes a modelled operation can end with.  `UncaughtValidation` is not one of
      them: it stands for a model validation error that escapes instead of an error code, as
      when a stored row no longer satisfies its domain model. */
  datatype ErrorCode =
    | RequiredField
    | ValidationError
    | UnknownAccount
    | DuplicateAccountCode
    | DuplicateAccountName
    | AccountHasPostings
    | UnknownJournalEntry
    | JournalAlreadyPosted
    | UnknownError
    | UncaughtValidation
}
