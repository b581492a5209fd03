/** Option and Result, as `std::optional` and the fatal-error paths of the
    source are modelled. */
module Wrappers {

  datatype Option<+T> = None | Some(value: T)

  datatype Result<+T, +E> = Success(value: T) | Failure(error: E)
}
