/** Optional values, used for results that may be absent (a failed image load,
    a colour constructor that rejects its arguments, a setting kind without a widget). */
module Wrappers {
  datatype Option<+T> = None | Some(value: T)
}
