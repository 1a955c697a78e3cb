/** Optional values: an attribute that the program has not set yet, or a parse that fails. */
module Wrappers {
  datatype Option<+T> = None | Some(value: T)
}
