/** The optional-value datatype used for the page's nullable fields. */
module Wrappers {

  datatype Option<+T> = None | Some(value: T)
}
