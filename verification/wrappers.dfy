/** The optional-value datatype used for string lookups that can miss. */
module Wrappers {

  datatype Option<+T> = None | Some(value: T)
}
