/** The optional value used wherever the source has "a value or nothing":
    a parse that may fail, a step that may raise. */
module Wrappers {
  datatype Option<+T> = None | Some(value: T)
}
