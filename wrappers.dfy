/** Optional values, used where the charm's Python code would raise or find nothing. */
module Wrappers {
  datatype Option<+T> = None | Some(value: T)
}
