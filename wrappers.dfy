/** Optional values: Go's nil pointers, nil errors and "no annotation yet". */
module Wrappers {

  datatype Option<+T> = None | Some(value: T)
}
