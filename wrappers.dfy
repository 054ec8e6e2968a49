/** Optional values: PHP's `null` is modelled as `None`. */
module Wrappers {

  datatype Option<+T> = None | Some(value: T)

  /** Either a value or an error, in place of a thrown exception. */
  datatype Result<+R, +E> = Success(value: R) | Failure(error: E)
}
