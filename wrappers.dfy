/** Optional values and results with an error payload, shared by the ledger modules. */
module Wrappers {

  /** A value that may be missing: an absent cookie, a SQL NULL, a row that was not found. */
  datatype Option<+T> = None | Some(value: T)

  /** The outcome of a validation step: the parsed value, or what was wrong with the input. */
  datatype Result<+R, +E> = Success(value: R) | Failure(error: E)
}
