/** Optional values: a missing dictionary key, a field that was not set, a parse that failed. */
module Wrappers {

  datatype Option<+T> = None | Some(value: T)
}
