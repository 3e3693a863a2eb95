/** The optional value used for JavaScript's `undefined`/`null` fields and for
    external steps that may fail. */
module Wrappers {

  datatype Option<+T> = None | Some(value: T)
}
