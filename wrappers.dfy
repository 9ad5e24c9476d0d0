/** Small value types shared by the storefront modules. */
module Wrappers {

  /** A value that may be absent (TypeScript's `undefined` / `null`). */
  datatype Option<+T> = None | Some(value: T)

  /** The outcome of a call that either returns or throws (`Failure` carries the error text). */
  datatype Result<+R> = Success(value: R) | Failure(error: string)

  /**
   * The outcome of a call into the hosted backend whose body is not part of this
   * model: it either resolves or throws.
   */
  datatype CallOutcome = Succeeds | Throws
}
