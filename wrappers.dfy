/** Option and Result datatypes shared by both modules. */
module Wrappers {

  /** An absent or present value; an absent form field is `None`. */
  datatype Option<+T> = None | Some(value: T)

  /** The outcome of a parse: the parsed value, or the reasons it was refused. */
  datatype Result<+R, +E> = Success(value: R) | Failure(error: E)
}
