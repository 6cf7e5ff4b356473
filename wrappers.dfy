/** The optional value used for Python's `Optional[...]` results and for
    outcomes that may be missing. */
module Wrappers {

  datatype Option<+T> = None | Some(value: T)
}
