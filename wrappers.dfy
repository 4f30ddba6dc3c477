/** The usual optional-value datatype, shared by both widgets. */
module Wrappers {
  datatype Option<+T> = None | Some(value: T)
}
