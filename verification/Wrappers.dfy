/** Optional values, in place of Go's nil pointers, SQL's NULL and missing rows. */
module Wrappers {

  datatype Option<+T> = None | Some(value: T)
}
