/** Option and Result, the two outcome shapes the scoring rule needs. */
module Wrappers {

  /** An optional value: `None` is the "ineligible" outcome of scoring. */
  datatype Option<+T> = None | Some(value: T)

  /** Either a value or the kind of error that prevented it. */
  datatype Result<+R, +E> = Success(value: R) | Failure(error: E)
}
