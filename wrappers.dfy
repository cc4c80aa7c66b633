/** Optional values, used for "no message", "no match" and "no interface". */
module Wrappers {

  datatype Option<+T> = None | Some(value: T)
}
