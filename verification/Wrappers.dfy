/** What a computation may lack. */
module Wrappers {
  datatype Option<+T> = None | Some(value: T)
}
