/** Optional values, used for the fields of `location.state` and for optional error details. */
module Wrappers {

  datatype Option<+T> = None | Some(value: T)
}
