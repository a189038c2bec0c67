/** Option and Result datatypes used by the research pipeline model. */
module Wrappers {

  /** A value that may be absent: a missing dictionary key, a JSON null, a file that is not there. */
  datatype Option<+T> = None | Some(value: T)

  /** The outcome of an operation that either returns a value or raises an error. */
  datatype Result<+R, +E> = Success(value: R) | Failure(error: E)
}
