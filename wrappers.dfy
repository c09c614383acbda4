/** Small value types shared by the modules of this model. */
module Wrappers {

  /** A value that may be absent: JavaScript's `null` / `undefined` for a typed slot. */
  datatype Option<+T> = None | Some(value: T)
}
