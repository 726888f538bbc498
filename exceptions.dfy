/** The failures the cleaners' constructors raise, as values. */
module Exceptions {

  /** `SpacyCleanerMisconfigurationError` (a capability the model pipeline
      lacks) and the `ValueError` raised for contradictory options. */
  datatype CleanerError =
    | SpacyCleanerMisconfigurationError(message: string)
    | ValueError(message: string)

  datatype Result<+T> = Ok(value: T) | Err(error: CleanerError)

  /** The outcome of a constructor that may first warn and then fail:
      `warned` records whether `warnings.warn` was called. */
  datatype Built<+T> = Built(warned: bool, result: Result<T>)
}
