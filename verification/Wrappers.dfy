/** Failure-compatible datatypes and the domain errors the modelled services raise. */
module Wrappers {

  datatype Option<+T> = None | Some(value: T)

  /** The error codes of the modelled operations; each names the refusal, not the HTTP status. */
  datatype Error =
    | InvalidAmount
    | UserNotFound
    | TransactionNotFound
    | InvalidOperation
    | InsufficientBalance
    | MethodUnsupported
    | AmountOutOfRange
    | DestinationInvalid
    | DailyLimitReached
    | ReasonMissing
    | PayoutNotFound
    | InvalidTransition
    | ConversionNotFound
    | ConversionNotHeld
    | UniqueViolation
    | UnknownKey
    | InvalidScope
    | InvalidValue
    | StaleWrite
    | ScopeTargetInvalid
    | ProviderNotFound
    | OfferNotFound
    | InvalidStateTransition
    | RateLimited
    | Unavailable

  datatype Result<+T> = Ok(value: T) | Err(error: Error) {
    predicate IsFailure() {
      Err?
    }

    function PropagateFailure<U>(): Result<U>
      requires Err?
    {
      Err(error)
    }

    function Extract(): T
      requires Ok?
    {
      value
    }
  }
}
