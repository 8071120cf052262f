/** Optional values: an absent JSON field, a lookup that finds nothing. */
module Wrappers {

  datatype Option<+T> = None | Some(value: T)
}
