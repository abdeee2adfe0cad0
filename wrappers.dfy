/** The `T | null` values of the slices' state. */
module Wrappers {

  datatype Option<+T> = None | Some(value: T)
}
