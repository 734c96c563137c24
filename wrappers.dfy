/** The optional value used wherever main.py returns or stores None. */
module Wrappers {
  datatype Option<+T> = None | Some(value: T)
}
