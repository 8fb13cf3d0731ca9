/** Failure-compatible wrappers shared by the models: an optional value (Python's None)
    and a value-or-exception result (a Python `raise`). */
module Wrappers {

  datatype Option<+T> = None | Some(value: T)

  datatype Result<+R, +E> = Success(value: R) | Failure(error: E)
}
