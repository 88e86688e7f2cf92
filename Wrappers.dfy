/** Option and Result, the two failure-carrying shapes the model uses for
    Python's `None` and for operations that can raise. */
module Wrappers {

  datatype Option<+T> = None | Some(value: T)

  /** `Failure(e)` stands for "the source raises exception `e`". */
  datatype Result<+R, +E> = Success(value: R) | Failure(error: E)
}
