/** Optional values, standing in for PHP's "key is set / not set". */
module Wrappers {

  datatype Option<+T> = None | Some(value: T)
}
