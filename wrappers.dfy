/** Optional values: a field or callback the host may leave unset (`undefined`/`null`). */
module Wrappers {

  datatype Option<+T> = None | Some(value: T)
}
