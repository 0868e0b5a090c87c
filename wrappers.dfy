/** Optional values: an absent data source, an image size that may not be known. */
module Wrappers {
  datatype Option<+T> = None | Some(value: T)
}
