/** Optional values, for Go's nil pointers and absent map keys. */
module Wrappers {
  datatype Option<T> = None | Some(value: T)
}
