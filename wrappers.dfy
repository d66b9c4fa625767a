/** Values that may be absent: JavaScript's `undefined` and `null` results. */
module Wrappers {

  datatype Option<+T> = None | Some(value: T)
}
