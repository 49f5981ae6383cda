/** Results, options and the value of a source `double` seen by the checks that reject it. */
module Wrappers {
  datatype Option<+T> = None | Some(value: T)

  datatype Result<+T, +E> = Ok(value: T) | Err(error: E)

  /** A C++ double as input validation sees it: an exact number, or an infinity or NaN. */
  datatype Double = Num(value: real) | NonFinite
}
