/** Optional values: the `undefined` that a JavaScript lookup returns when nothing matches. */
module Wrappers {

  datatype Option<+T> = None | Some(value: T)
}
