/** Optional values: the model of a Go pointer to a scalar, `nil` being None. */
module Wrappers {

  datatype Option<+T> = None | Some(value: T)
}
