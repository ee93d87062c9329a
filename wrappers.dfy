/** The optional value used wherever the logger may have nothing to give. */
module Wrappers {

  datatype Option<+T> = None | Some(value: T)
}
