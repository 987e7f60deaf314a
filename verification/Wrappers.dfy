/** The Option type used where the driver returns a pointer that may be NULL. */
module Wrappers {
  datatype Option<+T> = None | Some(value: T)
}
