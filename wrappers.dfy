/** Python's `None`-or-value, used for optional parameters and for decode results. */
module Wrappers {
  datatype Option<+T> = None | Some(value: T)
}
