/** A value the browser may fail to produce. In this model `None` is the
    `NaN` that `parseFloat` returns for text that is not a number, the `null`
    that `localStorage.getItem` returns for a missing key, and a `JSON.parse`
    call that throws. */
module Wrappers {

  datatype Option<+T> = None | Some(value: T)
}
