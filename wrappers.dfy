/** The optional value used wherever the JavaScript source may see `undefined` or `null`. */
module Wrappers {

  datatype Option<+T> = None | Some(value: T)
}
