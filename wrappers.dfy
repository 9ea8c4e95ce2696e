/** The optional value used for the engine's failure returns (no chart, failed search). */
module Wrappers {
  datatype Option<+T> = None | Some(value: T)
}
