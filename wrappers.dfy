/** Small failure-carrying datatypes shared by the other modules. */
module Wrappers {

  /** A value that may be absent (Python's `None`). */
  datatype Option<+T> = None | Some(value: T)

  /** The result of a call into a library the model does not see: it either
      returns a value or raises an exception whose `str(e)` is `error`. */
  datatype Attempt<+T> = Returned(value: T) | Raised(error: string)
}
