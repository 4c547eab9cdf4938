/** Optional values, used where the Go code would panic or find nothing. */
module Wrappers {
  datatype Option<+T> = None | Some(value: T)
}
