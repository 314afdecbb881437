/** The optional value used wherever the Swift code works with an optional. */
module Wrappers {

  datatype Option<+T> = None | Some(value: T)

}
