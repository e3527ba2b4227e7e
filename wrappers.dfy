/** Optional values: an absent JavaScript value (`null`, `undefined`) is `None`. */
module Wrappers {

  datatype Option<+T> = None | Some(value: T)
}
