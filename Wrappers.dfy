/** The optional values of the JavaScript source: an argument left `undefined`, a prop left `null`. */
module Wrappers {

  datatype Option<+T> = None | Some(value: T)
}
