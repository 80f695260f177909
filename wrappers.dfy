/** The Option type used for JavaScript's `undefined`: a value that is absent. */
module Wrappers {

  datatype Option<+T> = None | Some(value: T)
}
