/** The optional value used wherever Go has a nil pointer, a failed lookup
    or a command that did not succeed. */
module Wrappers {

  datatype Option<+T> = None | Some(value: T)
}
