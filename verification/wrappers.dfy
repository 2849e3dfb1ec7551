/** Option and Result, the two failure-carrying datatypes the model uses for
    JavaScript's `null`/`undefined` values and for handlers that throw. */
module Wrappers {

  /** `None` stands for a missing value (`null` or `undefined` in the bot). */
  datatype Option<+T> = None | Some(value: T)

  /** The outcome of an operation that either yields a value or fails with an error. */
  datatype Result<+T, +E> = Success(value: T) | Failure(error: E)
}
