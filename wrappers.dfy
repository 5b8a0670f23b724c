/** Optional values: a Kotlin nullable result, or an operation that may throw. */
module Wrappers {
  datatype Option<+T> = None | Some(value: T)
}
