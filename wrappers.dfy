/** The optional value: an absent user, a missing store entry, a missing body or body field. */
module Wrappers {
  datatype Option<+T> = None | Some(value: T)
}
