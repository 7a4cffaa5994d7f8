/** Optional values, for the non-blocking receive that may find nothing. */
module Wrappers {
  datatype Option<+T> = None | Some(value: T)
}
