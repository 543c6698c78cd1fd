/** Optional values and results with an error side, used across the model. */
module Wrappers {

  /** An optional value; `None` also stands for pandas' NaN in indicator series. */
  datatype Option<+T> = None | Some(value: T)

  /** The outcome of an operation that the source may abort with an exception. */
  datatype Result<+T, +E> = Success(value: T) | Failure(error: E)
}
