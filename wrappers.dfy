/** The optional value used for every Python `X | None` field and every parser result. */
module Wrappers {

  datatype Option<+T> = None | Some(value: T)
}
