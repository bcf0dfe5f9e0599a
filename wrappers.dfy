/** Optional values, used for the optional search query and for the outcome of a lookup. */
module Wrappers {
  datatype Option<+T> = None | Some(value: T)
}
