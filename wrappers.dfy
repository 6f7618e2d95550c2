/** The optional value used where the drivers pass a pointer that may be NULL
    or an out-value that may be left unwritten. */
module Wrappers {

  datatype Option<+T> = None | Some(value: T)
}
