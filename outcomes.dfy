/** Exceptions of the AI draft-reply feature, and the Result type that stands for
    "returns a value or raises". */
module Outcomes {

  /** The exception classes the feature raises or lets through. */
  datatype Fault =
    | ApiError(message: string)         // Ai::OpenaiService::ApiError
    | GenerationError(message: string)  // Ai::ResponseGeneratorService::GenerationError
    | RuntimeError(message: string)     // any other StandardError: TypeError, NoMethodError,
                                        // JSON::ParserError, RecordInvalid, transport errors

  /** A Ruby method call that either returns a value or raises a Fault. */
  datatype Result<+T> = Ok(value: T) | Err(fault: Fault) {
    predicate IsFailure() { Err? }

    function PropagateFailure<U>(): Result<U>
      requires Err?
    {
      Err(fault)
    }

    function Extract(): T
      requires Ok?
    {
      value
    }
  }

  /** A value that may be nil. */
  datatype Option<+T> = None | Some(value: T)
}
