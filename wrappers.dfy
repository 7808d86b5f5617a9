/** Optional values, used for Python variables that may still be unbound. */
module Wrappers {
  datatype Option<+T> = None | Some(value: T)
}
