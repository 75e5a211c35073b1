/** Optional values: a JavaScript value that may be `undefined`/`null`. */
module Wrappers {

  datatype Option<T> = None | Some(value: T)
}
