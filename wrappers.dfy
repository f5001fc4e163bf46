/** Small failure-carrying datatypes shared by the model. */
module Wrappers {

  /** An optional value; `None` stands for a null handle or pointer. */
  datatype Option<+T> = None | Some(value: T)

  /** The outcome of a step that may throw `std::runtime_error`. */
  datatype Outcome = Success | RuntimeError(message: string)

  /** A value, or the message of the `std::runtime_error` thrown instead. */
  datatype Result<+T> = Ok(value: T) | Err(message: string)
}
