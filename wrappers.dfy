/** The optional value that the JavaScript source expresses with `undefined`/`null`. */
module Wrappers {
  datatype Option<+T> = None | Some(value: T)
}
