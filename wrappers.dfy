/** Optional values: a dictionary key that the detector may or may not set. */
module Wrappers {
  datatype Option<+T> = None | Some(value: T)
}
