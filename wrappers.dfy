/** The optional value used where the node may have nothing to hand on. */
module Wrappers {

  datatype Option<+T> = None | Some(value: T)
}
