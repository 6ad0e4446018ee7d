/** Optional values, used for lookups that may miss. */
module Wrappers {

  /** Either no value or exactly one value. */
  datatype Option<+T> = None | Some(value: T)
}
