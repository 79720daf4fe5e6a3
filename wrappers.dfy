/** Optional values and error-carrying results, as the TypeScript code uses
    `T | null` and thrown `Error`s. */
module Wrappers {

  datatype Option<T> = None | Some(value: T)

  /** A computation that either produced a value or threw an `Error` whose
      message is `error`. */
  datatype Result<T> = Success(value: T) | Failure(error: string)
}
