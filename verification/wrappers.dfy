/** Failure-carrying values used in place of the C++ exceptions of the two programs. */
module Wrappers {

  /** A value that may be absent; models a stream extraction that set failbit. */
  datatype Option<+T> = None | Some(value: T)

  /** Either a value or the exception the C++ code throws. */
  datatype Result<+T, +E> = Ok(value: T) | Err(error: E)
}
