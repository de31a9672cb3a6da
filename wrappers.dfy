/** A value that may be absent: JavaScript's `undefined` / `null` beside a present value. */
module Wrappers {

  datatype Option<T> = None | Some(value: T)

}
