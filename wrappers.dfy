/** The optional value used for the results of dialogs and of partial operations. */
module Wrappers {

  datatype Option<+T> = None | Some(value: T)
}
