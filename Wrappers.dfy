/** The optional value used for the screens' slots that may be absent. */
module Wrappers {

  datatype Option<+T> = None | Some(value: T)
}
