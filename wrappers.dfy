/** The optional value used for the source's nullable fields (`T | null`)
    and for the outcome of an awaited call that may be rejected. */
module Wrappers {
  datatype Option<+T> = None | Some(value: T)
}
