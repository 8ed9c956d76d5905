/** Optional values: a JavaScript `undefined` or a failed `match`. */
module Wrappers {

  datatype Option<+T> = None | Some(value: T)
}
