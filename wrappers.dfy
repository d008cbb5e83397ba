/** Option and Result, the failure-carrying datatypes the other modules use
    for Python's `None` results and raised exceptions. */
module Wrappers {

  datatype Option<+T> = None | Some(value: T)

  /** A Python call either returns a value or raises an exception whose
      `str()` is `error`. */
  datatype Result<+T> = Success(value: T) | Failure(error: string)
}
