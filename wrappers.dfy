/** Optional values, standing for the source's nullable refs and missing callbacks. */
module Wrappers {

  datatype Option<+T> = None | Some(value: T)
}
