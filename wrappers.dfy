/** The optional value used wherever the source uses Python's `None`. */
module Wrappers {
  datatype Option<+T> = None | Some(value: T)
}
