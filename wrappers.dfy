/** Optional values: the `?` fields of the records and values that may be absent (null). */
module Wrappers {
  datatype Option<+T> = None | Some(value: T)
}
