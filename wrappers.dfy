/** A value that may be absent: TypeScript's `T | null`, and JavaScript's `undefined`. */
module Wrappers {

  datatype Option<+T> = None | Some(value: T)
}
