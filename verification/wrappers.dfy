/** The usual optional value, used for `try_recv` results and for the request a submit hands to the network task. */
module Wrappers {
  datatype Option<T> = None | Some(value: T)
}
