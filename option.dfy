/** Python's `None`-or-value, as returned by the extractors and stored in a session record. */
module Opt {
  datatype Option<+T> = None | Some(value: T)
}
