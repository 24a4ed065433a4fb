/** The optional value, standing for an absent value, a null value or a failed request. */
module Wrappers {
  datatype Option<+T> = None | Some(value: T)
}
