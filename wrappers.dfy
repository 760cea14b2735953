/** Option, the absent-or-present value used for JavaScript's `undefined` and NaN results. */
module Wrappers {

  datatype Option<+T> = None | Some(value: T)
}
