/** The optional value returned by a checkpoint lookup: `None` plays the part of Python's `None`. */
module Wrappers {

  datatype Option<+T> = None | Some(value: T)
}
