/** The one failure-free container the models share. */
module Wrappers {
  datatype Option<+T> = None | Some(value: T)
}
