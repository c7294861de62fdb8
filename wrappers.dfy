/** Optional values: a key that a metadata dictionary may or may not hold. */
module Wrappers {
  datatype Option<+T> = None | Some(value: T)
}
