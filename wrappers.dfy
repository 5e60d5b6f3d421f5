/** Option: Python's `None`-or-value, used for attribute lookups and searches. */
module Wrappers {
  datatype Option<+T> = None | Some(value: T)
}
