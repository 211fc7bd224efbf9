/** Optional values, as Go expresses them with nil pointers and unset proto fields. */
module Wrappers {

  datatype Option<+T> = None | Some(value: T)
}
