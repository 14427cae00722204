/** The optional value used for readings that may be missing. */
module Wrappers {

  datatype Option<+T> = None | Some(value: T)
}
