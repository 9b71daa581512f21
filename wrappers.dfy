/** Optional values: an absent pointer, an absent style option. */
module Wrappers {
  datatype Option<+T> = None | Some(value: T)
}
