/** A value that may be absent: a DOM element that is not on the page, a
    dataset lookup that finds nothing, a prediction that was not refreshed. */
module Wrappers {
  datatype Option<+T> = None | Some(value: T)
}
