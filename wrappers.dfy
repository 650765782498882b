/** The optional value used wherever the source returns `None` or reads a
    variable that may be absent. */
module Wrappers {
  datatype Option<+T> = None | Some(value: T)
}
