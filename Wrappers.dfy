/** The optional value used where the game has a null reference or a callback that may not run. */
module Wrappers {
  datatype Option<+T> = None | Some(value: T)
}
