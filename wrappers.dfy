/** Optional values, used where the C code signals "not found" with a null pointer. */
module Wrappers {

  datatype Option<+T> = None | Some(value: T)
}
