/** Optional values: a route argument that may be missing, a user lookup that may find nobody. */
module Wrappers {
  datatype Option<+T> = None | Some(value: T)
}
