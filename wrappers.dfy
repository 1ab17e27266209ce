/** Optional values, used wherever the source works with a value that may be absent. */
module Wrappers {
  datatype Option<+T> = None | Some(value: T)
}
