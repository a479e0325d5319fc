/** Optional values: a request field that may be absent, a number that may not parse. */
module Wrappers {

  datatype Option<+T> = None | Some(value: T)
}
