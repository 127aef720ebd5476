/** The optional value that stands for JavaScript's `undefined`/`null` in the admin pages. */
module Wrappers {

  datatype Option<+T> = None | Some(value: T)
}
