/** The optional value returned by a fallible step: `Some` carries a value,
    `None` signals that there is nothing to return. */
module Wrappers {

  datatype Option<+T> = None | Some(value: T)

}
