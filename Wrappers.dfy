/** The optional value used wherever the components hold `null` or `undefined`. */
module Wrappers {
  datatype Option<T> = None | Some(value: T)
}
