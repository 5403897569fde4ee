/** An optional value (the source's `null`) and a
    value-or-error result (the source's thrown exceptions and rejected promises). */
module Wrappers {

  datatype Option<+T> = None | Some(value: T)

  datatype Result<+R, +E> = Success(value: R) | Failure(error: E)
}
