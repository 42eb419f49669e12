/** The optional value a dict lookup returns. */
module Wrappers {

  datatype Option<+T> = None | Some(value: T)
}
