/** The optional value used for absent rows, absent catalog entries and null columns. */
module Wrappers {

  datatype Option<+T> = None | Some(value: T)
}
