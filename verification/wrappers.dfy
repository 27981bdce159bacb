/** The Option type used for "found / not found" results. */
module Wrappers {

  /** `None` plays the part of JavaScript's `undefined` returned by `Array.prototype.find`. */
  datatype Option<+T> = None | Some(value: T)
}
