/** Optional values: `undefined`/`null` in the application become `None`. */
module Wrappers {

  datatype Option<+T> = None | Some(value: T)
}
