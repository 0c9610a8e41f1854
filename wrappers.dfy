/** Optional values: a JSON field or environment variable that may be absent. */
module Wrappers {

  datatype Option<+T> = None | Some(value: T)
}
