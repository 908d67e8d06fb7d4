/** The optional value used wherever the screen's JavaScript yields `undefined`
    or `null` (an out-of-range table lookup, a date not yet selected). */
module Wrappers {

  datatype Option<+T> = None | Some(value: T)
}
