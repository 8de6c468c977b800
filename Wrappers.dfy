/** The optional value used for the dropdown's selection: `None` is the
    value a cleared dropdown passes to the callback. */
module Wrappers {

  datatype Option<+T> = None | Some(value: T)
}
