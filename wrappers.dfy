/** A value that may be missing: JavaScript's `null`/`undefined` where the
    chart accepts one. */
module Wrappers {

  datatype Option<+T> = None | Some(value: T)
}
