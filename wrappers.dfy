/** Option, for values that may be absent (a missing map entry, an error that did not happen). */
module Wrappers {

  datatype Option<+T> = None | Some(value: T)
}
