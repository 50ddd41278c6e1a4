/** The optional value of the usual kind, for results the source leaves undefined. */
module Wrappers {
  datatype Option<+T> = None | Some(value: T)
}
