/** The optional value the calculator uses for a registry lookup and for
    the pending binary operation. */
module Wrappers {

  datatype Option<+T> = None | Some(value: T)
}
