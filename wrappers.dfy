/** Option and Outcome: the model's stand-ins for a nullable pointer and for an
    operation that either passes or stops with one diagnostic. */
module Wrappers {

  /** A value that may be absent (a `nullptr` field or return in the program). */
  datatype Option<+T> = None | Some(value: T)

  /** Pass, or fail carrying the first error found. */
  datatype Outcome<+E> = Pass | Fail(error: E)
}
