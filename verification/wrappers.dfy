/** Option and Result: the absent join and the thrown exception of the pipeline,
    written as values. */
module Wrappers {

  /** A value that may be missing, as a join that found no row. */
  datatype Option<+T> = None | Some(value: T)

  /** Either a computed value or the error that stopped the computation. */
  datatype Result<+R, +E> = Success(value: R) | Failure(error: E)
}
