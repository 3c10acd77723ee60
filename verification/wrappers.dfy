/** Optional values: a failed call, a missing key or a failed parse is `None`. */
module Wrappers {
  datatype Option<+T> = None | Some(value: T)
}
