/** Optional values, for the source's null results and raised errors. */
module Wrappers {
  datatype Option<+T> = None | Some(value: T)
}
