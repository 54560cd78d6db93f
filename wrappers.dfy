/** JavaScript's `null`/`undefined` for the values the model passes around. */
module Wrappers {

  datatype Option<+T> = None | Some(value: T)
}
