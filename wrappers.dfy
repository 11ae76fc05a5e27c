/** The optional values of the calculator: JavaScript's `null` becomes `None`. */
module Wrappers {

  datatype Option<+T> = None | Some(value: T)
}
