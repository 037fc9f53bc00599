/** The optional value used by the code-to-enumerator conversions. */
module Wrappers {
  datatype Option<+T> = None | Some(value: T)
}
