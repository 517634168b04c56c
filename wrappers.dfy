/** An optional value: stands for a field that may still be `undefined`. */
module Wrappers {
  datatype Option<T> = None | Some(value: T)
}
