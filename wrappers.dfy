/** Optional values and results that carry an error message, standing in for
    JavaScript's `null` and for thrown `Error`s. */
module Wrappers {

  /** A value that may be absent (`null` / `undefined` in the source). */
  datatype Option<+T> = None | Some(value: T)

  /** The outcome of an operation that either returns a value or throws an
      `Error` whose message is `error`. */
  datatype Result<+T> = Ok(value: T) | Err(error: string)
}
