/** Failure-compatible wrappers shared by the model: an optional value (a
    Kotlin nullable) and a result that is either a value or an error (a
    thrown exception). */
module Wrappers {

  datatype Option<+T> = None | Some(value: T)

  datatype Result<+T, +E> = Success(value: T) | Failure(error: E)
}
