/** Absent-or-present values and success-or-failure values, used for the
    optional fields and the thrown errors of the listing engine. */
module Wrappers {

  datatype Option<+T> = None | Some(value: T)

  datatype Result<+T, +E> = Success(value: T) | Failure(error: E)
}
