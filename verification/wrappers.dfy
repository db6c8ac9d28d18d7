/** The optional value used where the program has `None` or raises and recovers. */
module Wrappers {
  datatype Option<+T> = None | Some(value: T)
}
