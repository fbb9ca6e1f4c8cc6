/** Failure-carrying values shared by the three scripts. */
module Wrappers {

  /** Python's `None`-or-value results. */
  datatype Option<+T> = None | Some(value: T)

  /** A computation that either produces a value or aborts the script with an error. */
  datatype Result<+T, +E> = Ok(value: T) | Err(error: E)
}
