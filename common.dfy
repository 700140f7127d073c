/** Shared value wrappers: an optional value (JavaScript's `undefined`/`null`)
    and the outcome of an operation that may throw. */
module Common {

  datatype Option<T> = None | Some(value: T)

  /** `Failure(msg)` stands for an `Error` thrown with message `msg`. */
  datatype Result<T> = Success(value: T) | Failure(message: string)
}
