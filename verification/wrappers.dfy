/** The optional value used for the product lookup and for index searches. */
module Wrappers {

  datatype Option<+T> = None | Some(value: T)
}
