/** A nullable value: JavaScript's `null` becomes None. */
module Wrappers {

  datatype Option<+T> = None | Some(value: T)
}
