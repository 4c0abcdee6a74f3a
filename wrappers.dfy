/** Optional values, for the places where the source uses `undefined`, `null` or `?.`. */
module Wrappers {
  datatype Option<+T> = None | Some(value: T)
}
