/** A nullable value: JavaScript's `null` or an actual value. */
module Wrappers {

  datatype Option<+T> = None | Some(value: T)
}
