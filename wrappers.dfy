/** Swift optionals, as a value type. */
module Wrappers {
  datatype Option<+T> = None | Some(value: T)
}
