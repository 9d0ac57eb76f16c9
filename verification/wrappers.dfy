/** Optional values and results used by the plan model: an optional value
    (Java's nullable reference, or a lookup that may miss) and a result that
    carries either a value or the exception the Java code throws. */
module Wrappers {

  datatype Option<+T> = None | Some(value: T)

  datatype Result<+R, +E> = Success(value: R) | Failure(error: E)
}
