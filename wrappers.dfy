/** Optional values, used for "not found" results of lookups. */
module Wrappers {

  datatype Option<+T> = None | Some(value: T)
}
