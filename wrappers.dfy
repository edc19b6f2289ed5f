/** Optional values, for lookups and decoders that may fail. */
module Wrappers {
  datatype Option<+T> = None | Some(value: T)
}
