/** Small failure-carrying datatypes shared by the rest of the model. */
module Wrappers {

  /** A Kotlin nullable value: `None` stands for `null`. */
  datatype Option<+T> = None | Some(value: T)

  /** The error a `require(...)` call raises. The message text is not modelled. */
  datatype Error = IllegalArgument

  /** The outcome of an operation that may throw. */
  datatype Result<+T> = Ok(value: T) | Err(error: Error)
}
