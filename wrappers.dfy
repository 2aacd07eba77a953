/** The optional value used for absent payload fields and empty cache slots. */
module Wrappers {
  datatype Option<+T> = None | Some(value: T)
}
