/** Option and Result, as used by the ledger model. */
module Wrappers {

  /** An optional value; `None` stands for an absent or not-a-number input. */
  datatype Option<+T> = None | Some(value: T)

  /** Either a value or the error that prevented computing it. */
  datatype Result<+R, +E> = Success(value: R) | Failure(error: E)
}
