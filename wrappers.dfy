/** The conventional optional value, used where the source has `None` or a
    missing key, and for a mean the source never evaluates. */
module Wrappers {
  datatype Option<+T> = None | Some(value: T)
}
