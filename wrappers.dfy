/** The optional value used for a parsed user choice and a command lookup. */
module Wrappers {

  datatype Option<+T> = None | Some(value: T)
}
