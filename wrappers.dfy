/** The optional value used for the source's `undefined`-able fields and for
    remote calls that either deliver a result or fail. */
module Wrappers {

  datatype Option<+T> = None | Some(value: T)
}
