/** The optional value used for the session's bound username. */
module Wrappers {

  datatype Option<+T> = None | Some(value: T)
}
