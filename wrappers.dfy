/** The optional value used for `T | undefined` fields and for `T | null` results. */
module Wrappers {
  datatype Option<+T> = None | Some(value: T)
}
