/** Option and Result values used for missing data and for errors reported by the database. */
module Wrappers {

  datatype Option<+T> = None | Some(value: T)

  datatype Result<+T, +E> = Ok(value: T) | Err(error: E)

  /** `Result<(), E>` of the migration entry points: success, or the first error. */
  datatype Outcome<+E> = Pass | Fail(error: E)
}
