/** Option, in its usual form. */
module Wrappers {
  datatype Option<+T> = None | Some(value: T)
}
