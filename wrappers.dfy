/** The conventional optional value, standing in for a nullable reference. */
module Wrappers {

  datatype Option<+T> = None | Some(value: T)
}
