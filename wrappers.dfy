/** Option type shared by the credential store and the connection manager. */
module Wrappers {

  datatype Option<+T> = None | Some(value: T)
}
