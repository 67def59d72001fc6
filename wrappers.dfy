/** Optional values, used for a missing destination, a missing callback and a failed decode. */
module Wrappers {
  datatype Option<+T> = None | Some(value: T)
}
