/** The usual optional-value datatype, used for the outcome of a search. */
module Wrappers {

  datatype Option<+T> = None | Some(value: T)
}
