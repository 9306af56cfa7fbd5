/** Optional values: a JavaScript `undefined` or a missing document is `None`. */
module Wrappers {

  datatype Option<+T> = None | Some(value: T)

}
