/** The optional value shared by the page and the endpoints: a field that may
    be missing, a lookup that may fail, a parse that may be rejected. */
module Wrappers {
  datatype Option<T> = None | Some(value: T)
}
