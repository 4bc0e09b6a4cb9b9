/** Optional values shared by the two models. */
module Wrappers {

  /** A value that may be absent (JavaScript's `undefined`, or `-Infinity` used as "no value yet"). */
  datatype Option<+T> = None | Some(value: T)
}
