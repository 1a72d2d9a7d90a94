/** The optional value used for the last observed wheel direction, which starts out unset. */
module Wrappers {
  datatype Option<+T> = None | Some(value: T)
}
