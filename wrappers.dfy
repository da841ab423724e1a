/** Optional values: a missing field, a failed parse, an unset filter. */
module Wrappers {
  datatype Option<+T> = None | Some(value: T)
}
