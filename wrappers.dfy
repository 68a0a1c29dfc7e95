/** The Option datatype used for "parsed or not" and "line or end of input". */
module Wrappers {
  datatype Option<+T> = None | Some(value: T)
}
