/** The optional value used for every field the descriptor may leave unset. */
module Wrappers {

  datatype Option<+T> = None | Some(value: T)
}
