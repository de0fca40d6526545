/** The optional value that a lookup in browser storage returns (`null` or a string). */
module Wrappers {

  datatype Option<+T> = None | Some(value: T)
}
