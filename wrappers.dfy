/** The optional value used for TypeScript's `T | null` and `T | undefined`. */
module Wrappers {
  datatype Option<+T> = None | Some(value: T)
}
