/** The Option datatype used for partial results (a parse that may fail). */
module Wrappers {

  datatype Option<+T> = None | Some(value: T)
}
