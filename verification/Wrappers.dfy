/** Optional values, standing in for nil pointers and absent map entries. */
module Wrappers {
  datatype Option<+T> = None | Some(value: T)
}
