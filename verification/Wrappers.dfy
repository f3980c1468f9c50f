/** The usual optional value, used where the sources use `undefined`, `null` or `None`. */
module Wrappers {
  datatype Option<+T> = None | Some(value: T)
}
