/** Optional values and results with an error, shared by both pipelines. */
module Wrappers {

  /** A value that may be absent: a dictionary key that is not there, or a lookup that found nothing. */
  datatype Option<+T> = None | Some(value: T)

  /** The value of a step that either completes or raises an error. */
  datatype Result<+T, +E> = Success(value: T) | Failure(error: E)
}
