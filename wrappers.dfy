/** Optional values, used for operations of the source that raise on bad input. */
module Wrappers {
  datatype Option<+T> = None | Some(value: T)
}
