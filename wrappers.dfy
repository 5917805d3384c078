/** Optional values: Go's nil pointer or nil error in a slot of a slice. */
module Wrappers {

  datatype Option<+T> = None | Some(value: T)
}
