/** The optional value used for missing settings and for parses that fail. */
module Wrappers {

  datatype Option<+T> = None | Some(value: T)
}
