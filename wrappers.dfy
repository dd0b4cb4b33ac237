/** The optional value used wherever the source returns `Option` or looks up
    an entry that may be missing. */
module Wrappers {

  datatype Option<T> = None | Some(value: T)
}
