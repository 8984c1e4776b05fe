/** Plain Option, Result and Outcome datatypes shared by the pipeline's components. */
module Wrappers {

  /** A value that may be SQL NULL / Python None. */
  datatype Option<+T> = None | Some(value: T)

  /** The value of a step that may raise instead. */
  datatype Result<+T, +E> = Success(value: T) | Failure(error: E)

  /** The outcome of a step that returns nothing or raises. */
  datatype Outcome<+E> = Pass | Fail(error: E)
}
