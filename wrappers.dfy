/** Optional values: a Go `error` that may be nil, a C pointer that may be NULL. */
module Wrappers {

  datatype Option<+T> = None | Some(value: T)
}
