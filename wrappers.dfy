/** Swift's Optional, as a datatype. */
module Wrappers {

  datatype Option<+T> = None | Some(value: T)
}
