/** The optional-value datatype shared by the modules of this project. */
module Wrappers {
  /** Python's "a value or None". */
  datatype Option<T> = None | Some(value: T)
}
