/** The conventional Some/None datatype: a validated field either holds a value or is absent. */
module Wrappers {

  datatype Option<+T> = None | Some(value: T)
}
