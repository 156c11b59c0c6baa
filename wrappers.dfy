/** The optional value used for a missing URL and for "no match". */
module Wrappers {
  datatype Option<+T> = None | Some(value: T)
}
