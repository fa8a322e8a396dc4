/** Optional values, used for the `Optional[...]` fields and for values a caller may omit. */
module Wrappers {

  datatype Option<+T> = None | Some(value: T)
}
