/** Optional values and results of fallible computations. */
module Wrappers {
  datatype Option<+T> = None | Some(value: T)

  datatype Result<+T, +E> = Success(value: T) | Failure(error: E)

  /** What a Python call may do: return a value, or raise an exception whose text is kept. */
  datatype Outcome<+T> = Returns(value: T) | Throws(exception: string)
}
