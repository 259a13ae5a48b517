/** The optional value used for match results, missing attributes and exhaustion. */
module Wrappers {

  datatype Option<+T> = None | Some(value: T)
}
