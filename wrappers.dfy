/** The optional value and the success-or-error result shared by the other modules. */
module Wrappers {

  /** A value that may be absent: JavaScript's `undefined`/`null` fields. */
  datatype Option<+T> = None | Some(value: T)

  /** An outcome that is either a value or an error, for code that throws. */
  datatype Result<+T, +E> = Ok(value: T) | Err(error: E)
}
