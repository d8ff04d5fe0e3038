/** The optional-value wrapper shared by the other modules. */
module Wrappers {

  /** A value that may be absent: Python's `None` or a missing dictionary key. */
  datatype Option<+T> = None | Some(value: T)
}
