/** Optional values: JavaScript's `undefined` where the server may meet it. */
module Wrappers {

  datatype Option<+T> = None | Some(value: T)
}
