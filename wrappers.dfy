/** Option and Result values for the places where the analysis returns
    "nothing" (pandas' None, a NaN statistic) or raises. */
module Wrappers {

  datatype Option<+T> = None | Some(value: T)

  datatype Result<+T, +E> = Ok(value: T) | Err(error: E)
}
