/** The optional value used wherever the framework has a Swift optional. */
module Wrappers {
  datatype Option<+T> = None | Some(value: T)
}
