/** Failure-carrying datatypes shared by every module of the model. */
module Wrappers {

  datatype Option<+T> = None | Some(value: T)

  datatype Result<+T, +E> = Ok(value: T) | Err(error: E)

  /** The Python exceptions the modelled code can raise. */
  datatype PyError =
    | AssertionError   // a failed `assert`
    | ValueError       // `int()` of a malformed string, unpacking an empty `zip()`
    | IndexError       // a list index out of range
    | TypeError        // iterating `None` (learning before preparing)
}
