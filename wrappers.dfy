/** The optional value used wherever the source has a value that may be absent
    (a null pointer, a `-1` index, a token that is not a key). */
module Wrappers {

  datatype Option<T> = None | Some(value: T)
}
