/** The optional value used for the keys a result dictionary may or may not carry. */
module Wrappers {

  datatype Option<+T> = None | Some(value: T)
}
