/** The nullable values of the source (`T | null`, `T | undefined`). */
module Wrappers {
  datatype Option<+T> = None | Some(value: T)
}
