/** Option and Result values: the model's stand-ins for JavaScript's `null`
    and for a rejected promise. */
module Wrappers {

  /** A value that may be absent (`T | null` in the source). */
  datatype Option<+T> = None | Some(value: T)

  /** The outcome of an operation that resolves with a value or rejects with an
      error message. */
  datatype Result<+R> = Success(value: R) | Failure(error: string)
}
